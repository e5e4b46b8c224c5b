/** components/Scanner.tsx: the receipt-analysis step machine and the record built
    when the user saves. The three service calls (receipt extraction, embedding,
    advice) are parameters whose `Failure` stands for a rejected promise; the
    crypto.randomUUID() id and today's date are parameters too. */
module Scanner {
  import opened Types
  import opened VectorService

  /** `useState<'upload' | 'analyzing' | 'review'>`. */
  datatype Step = Upload | Analyzing | Review

  /** What getProactiveAdvice resolves to. */
  datatype Advice = Advice(advice: seq<string>, sentiment: Sentiment)

  /** The observable effects of the component, in the order they happen: the state
      setters and the service calls. */
  datatype Event =
    | SetPreview(dataUrl: string)
    | SetStep(step: Step)
    | CallExtract(base64Data: string)
    | CallEmbed(text: string)
    | CallAdvise(current: PartialExpense, similar: seq<Expense>)
    | SetAnalysis(result: AnalysisResult)

  type Extractor = string -> Result<PartialExpense>
  type Embedder = string -> Result<seq<real>>
  type Adviser = (PartialExpense, seq<Expense>) -> Result<Advice>

  /** The text embedded for a receipt: `createEmbeddingText(extracted.merchant || '',
      extracted.category || '', extracted.items)`. */
  function SearchText(extracted: PartialExpense): string {
    CreateEmbeddingText(StringOr(extracted.merchant, ""), StringOr(extracted.category, ""), extracted.items)
  }

  /** A missing merchant or category enters the text as the empty string; present
      values, empty or not, enter as they are; the items are passed through. */
  lemma SearchTextDefaults(extracted: PartialExpense)
    ensures var merchant := if extracted.merchant.Some? then extracted.merchant.value else "";
            var category := if extracted.category.Some? then extracted.category.value else "";
            SearchText(extracted) == CreateEmbeddingText(merchant, category, extracted.items)
  {
  }

  /** The similar expenses shown for a query embedding: the ranked records of
      findSimilarExpenses with its default of three, in rank order. */
  function Similar(embedding: seq<real>, history: seq<Expense>, sqrt: SquareRoot): seq<Expense> {
    ExpensesOf(FindSimilarExpenses(Some(embedding), history, DefaultTopK, sqrt))
  }

  /** The object passed to setAnalysis: `{ ...extracted, embedding }` and the rest. */
  function Assemble(extracted: PartialExpense, embedding: seq<real>, similar: seq<Expense>,
                    advice: Advice): AnalysisResult
  {
    AnalysisResult(extracted.(embedding := Some(embedding)), advice.advice, similar, advice.sentiment)
  }

  /** The `try` block of processImage as one value: the stored analysis, or the error
      of the first call that rejects. */
  function Analyze(base64Data: string, history: seq<Expense>, extract: Extractor, embed: Embedder,
                   advise: Adviser, sqrt: SquareRoot): Result<AnalysisResult>
  {
    var extracted := extract(base64Data);
    if extracted.Failure? then Failure(extracted.error)
    else
      var embedding := embed(SearchText(extracted.value));
      if embedding.Failure? then Failure(embedding.error)
      else
        var similar := Similar(embedding.value, history, sqrt);
        var advice := advise(extracted.value, similar);
        if advice.Failure? then Failure(advice.error)
        else Success(Assemble(extracted.value, embedding.value, similar, advice.value))
  }

  /** The effects of one processImage run, in order: the analysing screen, the calls
      up to the first that rejects, then either the upload screen or the stored
      analysis followed by the review screen. */
  function Run(base64Data: string, history: seq<Expense>, extract: Extractor, embed: Embedder,
               advise: Adviser, sqrt: SquareRoot): seq<Event>
  {
    var extracted := extract(base64Data);
    if extracted.Failure? then
      [SetStep(Analyzing), CallExtract(base64Data), SetStep(Upload)]
    else
      var text := SearchText(extracted.value);
      var embedding := embed(text);
      if embedding.Failure? then
        [SetStep(Analyzing), CallExtract(base64Data), CallEmbed(text), SetStep(Upload)]
      else
        var similar := Similar(embedding.value, history, sqrt);
        var advice := advise(extracted.value, similar);
        if advice.Failure? then
          [SetStep(Analyzing), CallExtract(base64Data), CallEmbed(text), CallAdvise(extracted.value, similar),
           SetStep(Upload)]
        else
          [SetStep(Analyzing), CallExtract(base64Data), CallEmbed(text), CallAdvise(extracted.value, similar),
           SetAnalysis(Assemble(extracted.value, embedding.value, similar, advice.value)), SetStep(Review)]
  }

  /** A rejected extraction ends the run at once. */
  lemma ExtractRejected(base64Data: string, history: seq<Expense>, extract: Extractor, embed: Embedder,
                        advise: Adviser, sqrt: SquareRoot)
    requires extract(base64Data).Failure?
    ensures Analyze(base64Data, history, extract, embed, advise, sqrt) == Failure(extract(base64Data).error)
    ensures Run(base64Data, history, extract, embed, advise, sqrt)
         == [SetStep(Analyzing), CallExtract(base64Data), SetStep(Upload)]
  {
  }

  /** A rejected embedding ends the run before any advice is asked for. */
  lemma EmbedRejected(base64Data: string, history: seq<Expense>, extract: Extractor, embed: Embedder,
                      advise: Adviser, sqrt: SquareRoot)
    requires extract(base64Data).Success?
    requires embed(SearchText(extract(base64Data).value)).Failure?
    ensures var text := SearchText(extract(base64Data).value);
            && Analyze(base64Data, history, extract, embed, advise, sqrt) == Failure(embed(text).error)
            && Run(base64Data, history, extract, embed, advise, sqrt)
               == [SetStep(Analyzing), CallExtract(base64Data), CallEmbed(text), SetStep(Upload)]
  {
  }

  /** A rejected advice request ends the run without an analysis. */
  lemma AdviseRejected(base64Data: string, history: seq<Expense>, extract: Extractor, embed: Embedder,
                       advise: Adviser, sqrt: SquareRoot)
    requires extract(base64Data).Success?
    requires embed(SearchText(extract(base64Data).value)).Success?
    requires var x := extract(base64Data).value;
             advise(x, Similar(embed(SearchText(x)).value, history, sqrt)).Failure?
    ensures var x := extract(base64Data).value;
            var text := SearchText(x);
            var similar := Similar(embed(text).value, history, sqrt);
            && Analyze(base64Data, history, extract, embed, advise, sqrt) == Failure(advise(x, similar).error)
            && Run(base64Data, history, extract, embed, advise, sqrt)
               == [SetStep(Analyzing), CallExtract(base64Data), CallEmbed(text), CallAdvise(x, similar), SetStep(Upload)]
  {
  }

  /** When all three calls resolve, the run stores the analysis and then shows it. */
  lemma AllResolved(base64Data: string, history: seq<Expense>, extract: Extractor, embed: Embedder,
                    advise: Adviser, sqrt: SquareRoot)
    requires extract(base64Data).Success?
    requires embed(SearchText(extract(base64Data).value)).Success?
    requires var x := extract(base64Data).value;
             advise(x, Similar(embed(SearchText(x)).value, history, sqrt)).Success?
    ensures var x := extract(base64Data).value;
            var text := SearchText(x);
            var query := embed(text).value;
            var similar := Similar(query, history, sqrt);
            var result := Assemble(x, query, similar, advise(x, similar).value);
            && Analyze(base64Data, history, extract, embed, advise, sqrt) == Success(result)
            && Run(base64Data, history, extract, embed, advise, sqrt)
               == [SetStep(Analyzing), CallExtract(base64Data), CallEmbed(text), CallAdvise(x, similar),
                   SetAnalysis(result), SetStep(Review)]
  {
  }

  function IsCall(e: Event): bool {
    e.CallExtract? || e.CallEmbed? || e.CallAdvise?
  }

  /** The analysis succeeds exactly when all three calls resolve; otherwise it fails
      with the error of the first call that rejects. */
  lemma AnalyzeOutcome(base64Data: string, history: seq<Expense>, extract: Extractor, embed: Embedder,
                       advise: Adviser, sqrt: SquareRoot)
    ensures var r := Analyze(base64Data, history, extract, embed, advise, sqrt);
            var x := extract(base64Data);
            && (x.Failure? ==> r == Failure(x.error))
            && (x.Success? ==>
                  var e := embed(SearchText(x.value));
                  && (e.Failure? ==> r == Failure(e.error))
                  && (e.Success? ==>
                        var a := advise(x.value, Similar(e.value, history, sqrt));
                        && (a.Failure? ==> r == Failure(a.error))
                        && (a.Success? <==> r.Success?)))
  {
  }

  /** A successful analysis keeps what extraction returned, with the query embedding
      added; shows the ranked matches of that same embedding; and carries the advice. */
  lemma AnalyzeResult(base64Data: string, history: seq<Expense>, extract: Extractor, embed: Embedder,
                      advise: Adviser, sqrt: SquareRoot)
    requires Analyze(base64Data, history, extract, embed, advise, sqrt).Success?
    ensures var r := Analyze(base64Data, history, extract, embed, advise, sqrt).value;
            var x := extract(base64Data).value;
            var query := embed(SearchText(x)).value;
            && r.extractedData.embedding == Some(query)
            && r.extractedData.(embedding := x.embedding) == x
            && r.similarExpenses == Similar(query, history, sqrt)
            && advise(x, r.similarExpenses) == Success(Advice(r.advisory, r.sentiment))
  {
  }

  /** At most three matches, each a record of the history with an embedding, and none
      shown more often than it occurs in the history. */
  lemma SimilarFromHistory(embedding: seq<real>, history: seq<Expense>, sqrt: SquareRoot)
    ensures var s := Similar(embedding, history, sqrt);
            && |s| <= 3
            && (forall e :: e in s ==> e in history && HasEmbedding(e))
            && multiset(s) <= multiset(history)
  {
    var r := FindSimilarExpenses(Some(embedding), history, DefaultTopK, sqrt);
    FindSimilarExpensesFromHistory(embedding, history, DefaultTopK, sqrt);
    FindSimilarExpensesNoRepeats(embedding, history, DefaultTopK, sqrt);
    forall e | e in ExpensesOf(r) ensures e in history && HasEmbedding(e) {
      var i :| 0 <= i < |ExpensesOf(r)| && ExpensesOf(r)[i] == e;
      assert r[i] in r;
    }
  }

  /** A run first shows the analysing screen, before any service call; it ends on the
      review screen, right after storing the analysis, exactly when the analysis
      succeeds, and on the upload screen, storing nothing, when it fails. */
  lemma RunOrder(base64Data: string, history: seq<Expense>, extract: Extractor,
                   embed: Embedder, advise: Adviser, sqrt: SquareRoot)
    ensures var run := Run(base64Data, history, extract, embed, advise, sqrt);
            var r := Analyze(base64Data, history, extract, embed, advise, sqrt);
            && 2 <= |run|
            && run[0] == SetStep(Analyzing)
            && (forall i :: 0 <= i < |run| && IsCall(run[i]) ==> 0 < i)
            && (r.Success? <==> run[|run| - 1] == SetStep(Review))
            && (r.Success? ==> run[|run| - 2] == SetAnalysis(r.value))
            && (r.Failure? <==> run[|run| - 1] == SetStep(Upload))
            && (r.Failure? ==> forall i :: 0 <= i < |run| ==> !run[i].SetAnalysis?)
  {
    var x := extract(base64Data);
    if x.Failure? {
      ExtractRejected(base64Data, history, extract, embed, advise, sqrt);
    } else if embed(SearchText(x.value)).Failure? {
      EmbedRejected(base64Data, history, extract, embed, advise, sqrt);
    } else if advise(x.value, Similar(embed(SearchText(x.value)).value, history, sqrt)).Failure? {
      AdviseRejected(base64Data, history, extract, embed, advise, sqrt);
    } else {
      AllResolved(base64Data, history, extract, embed, advise, sqrt);
    }
  }

  /** handleSave's record: the extracted fields with `||` fallbacks, the new id, and
      the preview image when there is one. */
  function NewExpense(extracted: PartialExpense, id: string, today: string,
                      imagePreview: Option<string>): (e: Expense)
    ensures e.id == id
    ensures e.merchant != "" && e.currency != "" && e.category != ""
    ensures extracted.merchant.Some? && extracted.merchant.value != "" ==> e.merchant == extracted.merchant.value
    ensures extracted.merchant.None? || extracted.merchant.value == "" ==> e.merchant == "Unknown"
    ensures e.amount == if extracted.amount.Some? then extracted.amount.value else 0.0
    ensures extracted.currency.Some? && extracted.currency.value != "" ==> e.currency == extracted.currency.value
    ensures extracted.currency.None? || extracted.currency.value == "" ==> e.currency == "USD"
    ensures extracted.date.Some? && extracted.date.value != "" ==> e.date == extracted.date.value
    ensures extracted.date.None? || extracted.date.value == "" ==> e.date == today
    ensures extracted.category.Some? && extracted.category.value != "" ==> e.category == extracted.category.value
    ensures extracted.category.None? || extracted.category.value == "" ==> e.category == "Uncategorized"
    ensures e.tax == extracted.tax && e.items == extracted.items && e.embedding == extracted.embedding
    ensures e.description.None?
    ensures e.receiptImage.Some? <==> imagePreview.Some? && imagePreview.value != ""
    ensures e.receiptImage.Some? ==> e.receiptImage == imagePreview
  {
    Expense(
      id,
      StringOr(extracted.merchant, "Unknown"),
      NumberOr(extracted.amount, 0.0),
      StringOr(extracted.currency, "USD"),
      StringOr(extracted.date, today),
      StringOr(extracted.category, "Uncategorized"),
      extracted.tax,
      extracted.items,
      None,
      extracted.embedding,
      if imagePreview.Some? && imagePreview.value != "" then imagePreview else None)
  }

  /** The record saved after a successful analysis stores the very embedding that was
      used as the similarity query. */
  lemma SavedEmbeddingIsQuery(base64Data: string, history: seq<Expense>, extract: Extractor,
                              embed: Embedder, advise: Adviser, sqrt: SquareRoot,
                              id: string, today: string, imagePreview: Option<string>)
    requires Analyze(base64Data, history, extract, embed, advise, sqrt).Success?
    ensures var r := Analyze(base64Data, history, extract, embed, advise, sqrt).value;
            var query := embed(SearchText(extract(base64Data).value)).value;
            var saved := NewExpense(r.extractedData, id, today, imagePreview);
            && saved.embedding == Some(query)
            && r.similarExpenses == Similar(query, history, sqrt)
  {
    AnalyzeResult(base64Data, history, extract, embed, advise, sqrt);
  }

  /** The Scanner component's state. */
  class Scanner {
    const history: seq<Expense>
    var step: Step
    var imagePreview: Option<string>
    var analysis: Option<AnalysisResult>
    /** Every effect so far, oldest first. */
    ghost var events: seq<Event>

    /** Between runs the screen is never left on 'analyzing', and the review screen
        always has an analysis to show. */
    ghost predicate Valid()
      reads this
    {
      step != Analyzing && (step == Review ==> analysis.Some?)
    }

    /** The initial state: the upload screen, no preview, no analysis. */
    constructor(history: seq<Expense>)
      ensures this.history == history
      ensures step == Upload && imagePreview.None? && analysis.None? && events == []
      ensures Valid()
    {
      this.history := history;
      step := Upload;
      imagePreview := None;
      analysis := None;
      events := [];
    }

    /** processImage: show the analysing screen, run the three calls in order, then
        store the analysis and show the review screen, or on the first rejection go
        back to the upload screen without touching the analysis. */
    method ProcessImage(base64Data: string, extract: Extractor, embed: Embedder, advise: Adviser,
                        sqrt: SquareRoot)
      modifies this
      ensures var r := Analyze(base64Data, history, extract, embed, advise, sqrt);
              && step == (if r.Success? then Review else Upload)
              && analysis == (if r.Success? then Some(r.value) else old(analysis))
      ensures imagePreview == old(imagePreview)
      ensures events == old(events) + Run(base64Data, history, extract, embed, advise, sqrt)
      ensures old(Valid()) ==> Valid()
      ensures step == Review ==> analysis.Some?
    {
      step := Analyzing;
      var extracted := extract(base64Data);
      if extracted.Failure? {
        step := Upload;
        ExtractRejected(base64Data, history, extract, embed, advise, sqrt);
        events := events + [SetStep(Analyzing), CallExtract(base64Data), SetStep(Upload)];
        return;
      }
      var searchText := SearchText(extracted.value);
      var embedding := embed(searchText);
      if embedding.Failure? {
        step := Upload;
        EmbedRejected(base64Data, history, extract, embed, advise, sqrt);
        events := events + [SetStep(Analyzing), CallExtract(base64Data), CallEmbed(searchText), SetStep(Upload)];
        return;
      }
      var similar := Similar(embedding.value, history, sqrt);
      var adviceResult := advise(extracted.value, similar);
      if adviceResult.Failure? {
        step := Upload;
        AdviseRejected(base64Data, history, extract, embed, advise, sqrt);
        events := events + [SetStep(Analyzing), CallExtract(base64Data), CallEmbed(searchText),
                            CallAdvise(extracted.value, similar), SetStep(Upload)];
        return;
      }
      var result := Assemble(extracted.value, embedding.value, similar, adviceResult.value);
      analysis := Some(result);
      step := Review;
      AllResolved(base64Data, history, extract, embed, advise, sqrt);
      events := events + [SetStep(Analyzing), CallExtract(base64Data), CallEmbed(searchText),
                          CallAdvise(extracted.value, similar), SetAnalysis(result), SetStep(Review)];
    }

    /** handleFileChange once the file is read: keep the data URL as the preview and
        analyse its base64 payload. */
    method LoadImage(dataUrl: string, base64Data: string, extract: Extractor, embed: Embedder,
                     advise: Adviser, sqrt: SquareRoot)
      modifies this
      ensures imagePreview == Some(dataUrl)
      ensures var r := Analyze(base64Data, history, extract, embed, advise, sqrt);
              && step == (if r.Success? then Review else Upload)
              && analysis == (if r.Success? then Some(r.value) else old(analysis))
      ensures events == old(events) + [SetPreview(dataUrl)] + Run(base64Data, history, extract, embed, advise, sqrt)
      ensures old(Valid()) ==> Valid()
    {
      imagePreview := Some(dataUrl);
      events := events + [SetPreview(dataUrl)];
      ProcessImage(base64Data, extract, embed, advise, sqrt);
    }

    /** handleSave: the record passed to onSave, or nothing without an analysis. On the
        review screen of a valid state there is always a record. */
    method HandleSave(id: string, today: string) returns (saved: Option<Expense>)
      ensures saved.Some? <==> analysis.Some?
      ensures analysis.Some? ==> saved.value == NewExpense(analysis.value.extractedData, id, today, imagePreview)
      ensures Valid() && step == Review ==> saved.Some?
    {
      if analysis.Some? {
        saved := Some(NewExpense(analysis.value.extractedData, id, today, imagePreview));
      } else {
        saved := None;
      }
    }
  }
}
