/** The records of types.ts: an expense, a similarity result and the analysis the
    scanner shows for review, with JavaScript's optional fields made explicit. */
module Types {

  datatype Option<+T> = None | Some(value: T)

  /** The outcome of an external call that may reject (throw). */
  datatype Result<+T> = Success(value: T) | Failure(error: string)

  /** One purchase (types.ts, interface Expense). */
  datatype Expense = Expense(
    id: string,
    merchant: string,
    amount: real,
    currency: string,
    date: string,
    category: string,
    tax: Option<real>,
    items: Option<seq<string>>,
    description: Option<string>,
    embedding: Option<seq<real>>,
    receiptImage: Option<string>)

  /** `Partial<Expense>`: every field may be missing. */
  datatype PartialExpense = PartialExpense(
    id: Option<string>,
    merchant: Option<string>,
    amount: Option<real>,
    currency: Option<string>,
    date: Option<string>,
    category: Option<string>,
    tax: Option<real>,
    items: Option<seq<string>>,
    description: Option<string>,
    embedding: Option<seq<real>>,
    receiptImage: Option<string>)

  /** A ranked history record and its cosine score (types.ts, SimilarityResult). */
  datatype SimilarityResult = SimilarityResult(expense: Expense, score: real)

  datatype Sentiment = Positive | Neutral | Negative | Warning

  /** What the scanner keeps after a successful analysis (types.ts, AnalysisResult). */
  datatype AnalysisResult = AnalysisResult(
    extractedData: PartialExpense,
    advisory: seq<string>,
    similarExpenses: seq<Expense>,
    sentiment: Sentiment)

  /** JavaScript `s || fallback` for an optional string: absence and "" are falsy. */
  function StringOr(s: Option<string>, fallback: string): string {
    if s.Some? && s.value != "" then s.value else fallback
  }

  /** JavaScript `x || fallback` for an optional number: absence and 0 are falsy. */
  function NumberOr(x: Option<real>, fallback: real): real {
    if x.Some? && x.value != 0.0 then x.value else fallback
  }
}
