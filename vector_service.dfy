/** services/vectorService.ts: cosine similarity, top-K retrieval over the expense
    history, and the text that is sent to the embedding model. Numbers are reals;
    `Math.sqrt` is a parameter of type `SquareRoot`. */
module VectorService {
  import opened Types
  import opened ArrayOps

  /** `Math.sqrt` as far as the core relies on it: positive on positive arguments, so
      that a non-zero norm never divides by zero. */
  type SquareRoot = f: real -> real | forall x: real :: 0.0 < x ==> 0.0 < f(x)
    witness (x: real) => x

  /** One term of the loop's sums: `vecA[i] * vecB[i]`, `vecA[i] * vecA[i]`. The
      product is kept behind a function so that the solver sees an uninterpreted term
      instead of non-linear arithmetic: a square such as `x * x` written out inside
      the sums makes it lose even the linear steps. The facts about products that
      the proofs need are the small lemmas below. */
  function Product(x: real, y: real): real {
    x * y
  }

  lemma ProductPositive(x: real, y: real)
    requires 0.0 < x && 0.0 < y
    ensures 0.0 < Product(x, y)
  {
  }

  /** A square is positive unless its base is 0. */
  lemma SquarePositive(x: real)
    requires x != 0.0
    ensures 0.0 < Product(x, x)
  {
    if 0.0 < x {
      ProductPositive(x, x);
    } else {
      ProductPositive(-x, -x);
      assert Product(-x, -x) == Product(x, x);
    }
  }

  lemma SquareNonNegative(x: real)
    ensures 0.0 <= Product(x, x)
  {
    if x != 0.0 {
      SquarePositive(x);
    }
  }

  /** The dot product, summed from the first index up as the loop does. */
  function Dot(a: seq<real>, b: seq<real>): real
    requires |a| == |b|
  {
    if |a| == 0 then 0.0
    else Dot(a[..|a| - 1], b[..|b| - 1]) + Product(a[|a| - 1], b[|b| - 1])
  }

  /** The sum of squares, i.e. the squared Euclidean norm. */
  function SumSq(a: seq<real>): (r: real)
    ensures 0.0 <= r
  {
    if |a| == 0 then 0.0
    else
      SquareNonNegative(a[|a| - 1]);
      SumSq(a[..|a| - 1]) + Product(a[|a| - 1], a[|a| - 1])
  }

  lemma DotStep(a: seq<real>, b: seq<real>, i: nat)
    requires |a| == |b| && i < |a|
    ensures Dot(a[..i + 1], b[..i + 1]) == Dot(a[..i], b[..i]) + a[i] * b[i]
  {
    assert a[..i + 1][..i] == a[..i] && b[..i + 1][..i] == b[..i];
  }

  lemma SumSqStep(a: seq<real>, i: nat)
    requires i < |a|
    ensures SumSq(a[..i + 1]) == SumSq(a[..i]) + a[i] * a[i]
  {
    assert a[..i + 1][..i] == a[..i];
  }

  /** The last line of cosineSimilarity: the dot product over the product of the norms. */
  function Quotient(dot: real, normA: real, normB: real, sqrt: SquareRoot): real
    requires 0.0 < normA && 0.0 < normB
  {
    ProductPositive(sqrt(normA), sqrt(normB));
    dot / Product(sqrt(normA), sqrt(normB))
  }

  lemma QuotientSwap(dot: real, normA: real, normB: real, sqrt: SquareRoot)
    requires 0.0 < normA && 0.0 < normB
    ensures Quotient(dot, normA, normB, sqrt) == Quotient(dot, normB, normA, sqrt)
  {
    assert Product(sqrt(normA), sqrt(normB)) == Product(sqrt(normB), sqrt(normA));
  }

  /** The score `cosineSimilarity` computes: 0 for vectors of different lengths and
      for a zero norm, else the quotient. */
  function Cosine(a: seq<real>, b: seq<real>, sqrt: SquareRoot): real {
    if |a| != |b| then 0.0
    else if SumSq(a) == 0.0 || SumSq(b) == 0.0 then 0.0
    else Quotient(Dot(a, b), SumSq(a), SumSq(b), sqrt)
  }

  /** cosineSimilarity: one pass accumulating the dot product and both norms. */
  method CosineSimilarity(vecA: seq<real>, vecB: seq<real>, sqrt: SquareRoot) returns (score: real)
    ensures score == Cosine(vecA, vecB, sqrt)
    ensures |vecA| != |vecB| ==> score == 0.0
  {
    if |vecA| != |vecB| {
      return 0.0;
    }
    var dotProduct, normA, normB := 0.0, 0.0, 0.0;
    for i := 0 to |vecA|
      invariant dotProduct == Dot(vecA[..i], vecB[..i])
      invariant normA == SumSq(vecA[..i])
      invariant normB == SumSq(vecB[..i])
    {
      DotStep(vecA, vecB, i);
      SumSqStep(vecA, i);
      SumSqStep(vecB, i);
      dotProduct := dotProduct + vecA[i] * vecB[i];
      normA := normA + vecA[i] * vecA[i];
      normB := normB + vecB[i] * vecB[i];
    }
    assert vecA[..|vecA|] == vecA && vecB[..|vecB|] == vecB;
    if normA == 0.0 || normB == 0.0 {
      return 0.0;
    }
    ProductPositive(sqrt(normA), sqrt(normB));
    score := dotProduct / (sqrt(normA) * sqrt(normB));
    assert score == Quotient(dotProduct, normA, normB, sqrt);
  }

  lemma {:induction false} DotSymmetric(a: seq<real>, b: seq<real>)
    requires |a| == |b|
    ensures Dot(a, b) == Dot(b, a)
  {
    if |a| > 0 {
      DotSymmetric(a[..|a| - 1], b[..|b| - 1]);
    }
  }

  lemma {:induction false} DotSelf(a: seq<real>)
    ensures Dot(a, a) == SumSq(a)
  {
    if |a| > 0 {
      DotSelf(a[..|a| - 1]);
    }
  }

  /** A non-zero component makes the sum of squares positive. */
  lemma {:induction false} SumSqPositive(a: seq<real>, i: nat)
    requires i < |a| && a[i] != 0.0
    ensures 0.0 < SumSq(a)
  {
    var init, x := a[..|a| - 1], a[|a| - 1];
    if i < |a| - 1 {
      assert init[i] == a[i];
      SumSqPositive(init, i);
      SquareNonNegative(x);
    } else {
      SquarePositive(x);
    }
  }

  lemma {:induction false} SumSqOfZeros(a: seq<real>)
    requires forall i :: 0 <= i < |a| ==> a[i] == 0.0
    ensures SumSq(a) == 0.0
  {
    if |a| > 0 {
      SumSqOfZeros(a[..|a| - 1]);
    }
  }

  /** Over the reals a sum of squares is 0 exactly when every component is 0. */
  lemma SumSqZero(a: seq<real>)
    ensures SumSq(a) == 0.0 <==> forall i :: 0 <= i < |a| ==> a[i] == 0.0
  {
    if forall i :: 0 <= i < |a| ==> a[i] == 0.0 {
      SumSqOfZeros(a);
    } else {
      var i :| 0 <= i < |a| && a[i] != 0.0;
      SumSqPositive(a, i);
    }
  }

  /** The score does not depend on the order of its arguments. */
  lemma CosineSymmetric(a: seq<real>, b: seq<real>, sqrt: SquareRoot)
    ensures Cosine(a, b, sqrt) == Cosine(b, a, sqrt)
  {
    if |a| == |b| {
      DotSymmetric(a, b);
      if SumSq(a) != 0.0 && SumSq(b) != 0.0 {
        QuotientSwap(Dot(a, b), SumSq(a), SumSq(b), sqrt);
      }
    }
  }

  /** A vector of zeros, the empty vector included, scores 0 against anything. */
  lemma CosineZeroVector(a: seq<real>, b: seq<real>, sqrt: SquareRoot)
    requires forall i :: 0 <= i < |a| ==> a[i] == 0.0
    ensures Cosine(a, b, sqrt) == 0.0 && Cosine(b, a, sqrt) == 0.0
  {
    SumSqZero(a);
  }

  lemma DivideBySelf(n: real)
    requires n != 0.0
    ensures n / n == 1.0
  {
  }

  lemma QuotientSelf(n: real, sqrt: SquareRoot)
    requires 0.0 < n && sqrt(n) * sqrt(n) == n
    ensures Quotient(n, n, n, sqrt) == 1.0
  {
    var d := Product(sqrt(n), sqrt(n));
    assert d == n;
    assert Quotient(n, n, n, sqrt) == n / d;
    DivideBySelf(n);
  }

  /** A non-zero vector scores exactly 1 against itself when `sqrt` is exact at its
      squared norm. */
  lemma CosineSelf(a: seq<real>, sqrt: SquareRoot)
    requires SumSq(a) != 0.0
    requires sqrt(SumSq(a)) * sqrt(SumSq(a)) == SumSq(a)
    ensures Cosine(a, a, sqrt) == 1.0
  {
    var n := SumSq(a);
    DotSelf(a);
    assert Cosine(a, a, sqrt) == Quotient(n, n, n, sqrt);
    QuotientSelf(n, sqrt);
  }

  /** `item.embedding && item.embedding.length > 0`. */
  predicate HasEmbedding(e: Expense) {
    e.embedding.Some? && |e.embedding.value| > 0
  }

  /** `history.filter(...)`: the records carrying a non-empty embedding, in order. */
  function Embedded(history: seq<Expense>): (r: seq<Expense>)
    ensures forall e :: e in r <==> e in history && HasEmbedding(e)
    ensures multiset(r) <= multiset(history)
  {
    if |history| == 0 then []
    else
      assert history == [history[0]] + history[1..];
      (if HasEmbedding(history[0]) then [history[0]] else []) + Embedded(history[1..])
  }

  /** The filter drops no occurrence of a record with an embedding: each such record
      is kept exactly as often as it occurs in the history, every other one never. */
  lemma {:induction false} EmbeddedCount(history: seq<Expense>)
    ensures forall e :: multiset(Embedded(history))[e] == if HasEmbedding(e) then multiset(history)[e] else 0
  {
    if |history| > 0 {
      var head := if HasEmbedding(history[0]) then [history[0]] else [];
      assert history == [history[0]] + history[1..];
      assert Embedded(history) == head + Embedded(history[1..]);
      EmbeddedCount(history[1..]);
    }
  }

  /** The filter keeps history order: filtering two lists joined together is joining
      their filtered lists. */
  lemma {:induction false} EmbeddedAppend(a: seq<Expense>, b: seq<Expense>)
    ensures Embedded(a + b) == Embedded(a) + Embedded(b)
  {
    if |a| > 0 {
      var head := if HasEmbedding(a[0]) then [a[0]] else [];
      assert (a + b)[0] == a[0];
      assert (a + b)[1..] == a[1..] + b;
      assert Embedded(a + b) == head + Embedded(a[1..] + b);
      EmbeddedAppend(a[1..], b);
      assert Embedded(a) == head + Embedded(a[1..]);
    } else {
      assert a + b == b;
    }
  }

  /** `.map(item => ({ expense: item, score: cosineSimilarity(query, item.embedding!) }))`. */
  function Scored(query: seq<real>, candidates: seq<Expense>, sqrt: SquareRoot): (r: seq<SimilarityResult>)
    requires forall i :: 0 <= i < |candidates| ==> HasEmbedding(candidates[i])
    ensures |r| == |candidates|
    ensures forall i :: 0 <= i < |r| ==> r[i].expense == candidates[i]
    ensures forall i :: 0 <= i < |candidates| ==>
              HasEmbedding(candidates[i]) && r[i].score == Cosine(query, candidates[i].embedding.value, sqrt)
  {
    seq(|candidates|, i requires 0 <= i < |candidates| && HasEmbedding(candidates[i]) =>
      SimilarityResult(candidates[i], Cosine(query, candidates[i].embedding.value, sqrt)))
  }

  function ScoreOf(r: SimilarityResult): real { r.score }

  function ExpenseOf(r: SimilarityResult): Expense { r.expense }

  /** `results.map(s => s.expense)`. */
  function ExpensesOf(results: seq<SimilarityResult>): seq<Expense> {
    Map(results, ExpenseOf)
  }

  lemma ExpensesOfScored(query: seq<real>, candidates: seq<Expense>, sqrt: SquareRoot)
    requires forall i :: 0 <= i < |candidates| ==> HasEmbedding(candidates[i])
    ensures ExpensesOf(Scored(query, candidates, sqrt)) == candidates
  {
    var es := ExpensesOf(Scored(query, candidates, sqrt));
    assert forall i :: 0 <= i < |es| ==> es[i] == candidates[i];
  }

  /** The `topK` default. */
  const DefaultTopK: nat := 3

  /** findSimilarExpenses. Only an absent query short-circuits: a present empty
      array is truthy in JavaScript, so it is scored like any other query. */
  function FindSimilarExpenses(queryEmbedding: Option<seq<real>>, history: seq<Expense>,
                               topK: nat, sqrt: SquareRoot): (r: seq<SimilarityResult>)
    ensures queryEmbedding.None? || history == [] ==> r == []
    ensures |r| <= topK
  {
    if queryEmbedding.None? || |history| == 0 then []
    else
      var results := Scored(queryEmbedding.value, Embedded(history), sqrt);
      Take(SortDesc(results, ScoreOf), topK)
  }

  /** With a query, the result is the `min(topK, n)` best-scoring of the `n` records
      that carry an embedding, best first; among equal scores the records keep their
      history order. */
  lemma FindSimilarExpensesRanked(query: seq<real>, history: seq<Expense>, topK: nat, sqrt: SquareRoot)
    ensures var all := Scored(query, Embedded(history), sqrt);
            var r := FindSimilarExpenses(Some(query), history, topK, sqrt);
            && IsTopK(r, all, ScoreOf, topK)
            && |r| == Min(topK, |Embedded(history)|)
            && forall v :: WithKey(r, ScoreOf, v) <= WithKey(all, ScoreOf, v)
  {
    var all := Scored(query, Embedded(history), sqrt);
    if history != [] {
      SortThenTake(all, ScoreOf, topK);
    }
  }

  /** Every result is a history record with a non-empty embedding, unmodified, scored
      against that embedding. */
  lemma FindSimilarExpensesFromHistory(query: seq<real>, history: seq<Expense>, topK: nat,
                                       sqrt: SquareRoot)
    ensures forall x :: x in FindSimilarExpenses(Some(query), history, topK, sqrt) ==>
              && x.expense in history
              && HasEmbedding(x.expense)
              && x.score == Cosine(query, x.expense.embedding.value, sqrt)
  {
    var r := FindSimilarExpenses(Some(query), history, topK, sqrt);
    var cands := Embedded(history);
    var all := Scored(query, cands, sqrt);
    FindSimilarExpensesRanked(query, history, topK, sqrt);
    forall x | x in r
      ensures x.expense in history && HasEmbedding(x.expense)
      ensures x.score == Cosine(query, x.expense.embedding.value, sqrt)
    {
      assert x in multiset(all);
      var j :| 0 <= j < |all| && all[j] == x;
      assert x.expense == cands[j];
    }
  }

  /** No record is returned more often than it occurs in the history. */
  lemma FindSimilarExpensesNoRepeats(query: seq<real>, history: seq<Expense>, topK: nat,
                                     sqrt: SquareRoot)
    ensures var es := ExpensesOf(FindSimilarExpenses(Some(query), history, topK, sqrt));
            multiset(es) <= multiset(Embedded(history)) && multiset(es) <= multiset(history)
  {
    var r := FindSimilarExpenses(Some(query), history, topK, sqrt);
    var cands := Embedded(history);
    var all := Scored(query, cands, sqrt);
    if history != [] {
      FindSimilarExpensesRanked(query, history, topK, sqrt);
      MapSubMultiset(r, all, ExpenseOf);
      ExpensesOfScored(query, cands, sqrt);
    }
  }

  /** An empty query differs in length from every stored (non-empty) embedding. */
  lemma ScoredEmptyQuery(candidates: seq<Expense>, sqrt: SquareRoot)
    requires forall i :: 0 <= i < |candidates| ==> HasEmbedding(candidates[i])
    ensures forall x :: x in Scored([], candidates, sqrt) ==> ScoreOf(x) == 0.0
  {
    var all := Scored([], candidates, sqrt);
    forall x | x in all ensures ScoreOf(x) == 0.0 {
      var j :| 0 <= j < |all| && all[j] == x;
      assert HasEmbedding(candidates[j]);
    }
  }

  /** A present but empty query scores every record 0 (the lengths differ), so the
      result is the first `topK` records with an embedding, in history order. */
  lemma FindSimilarExpensesEmptyQuery(history: seq<Expense>, topK: nat, sqrt: SquareRoot)
    ensures var r := FindSimilarExpenses(Some([]), history, topK, sqrt);
            && ExpensesOf(r) == Take(Embedded(history), topK)
            && forall x :: x in r ==> x.score == 0.0
  {
    if history != [] {
      var cands := Embedded(history);
      var all := Scored([], cands, sqrt);
      ScoredEmptyQuery(cands, sqrt);
      SortDescAllEqual(all, ScoreOf, 0.0);
      assert FindSimilarExpenses(Some([]), history, topK, sqrt) == Take(all, topK);
      MapTake(all, ExpenseOf, topK);
      ExpensesOfScored([], cands, sqrt);
      forall x | x in Take(all, topK) ensures x.score == 0.0 {
        assert x in all;
      }
    }
  }

  /** The text before the item list in createEmbeddingText. */
  function Header(merchant: string, category: string): string {
    "Expense at " + merchant + " for " + category + ". Items: "
  }

  /** `items.join(sep)`. */
  function Join(items: seq<string>, sep: string): string {
    if |items| == 0 then ""
    else if |items| == 1 then items[0]
    else items[0] + sep + Join(items[1..], sep)
  }

  function TotalLength(items: seq<string>): nat {
    if |items| == 0 then 0 else |items[0]| + TotalLength(items[1..])
  }

  /** A join holds every item and one separator between each two. */
  lemma {:induction false} JoinLength(items: seq<string>, sep: string)
    requires |items| > 0
    ensures |Join(items, sep)| == TotalLength(items) + (|items| - 1) * |sep|
  {
    if |items| > 1 {
      JoinLength(items[1..], sep);
    }
  }

  /** With the separator ", ", a join is empty exactly for no items or one empty item. */
  lemma JoinEmpty(items: seq<string>)
    ensures Join(items, ", ") == "" <==> |items| == 0 || (|items| == 1 && items[0] == "")
  {
    if |items| > 1 {
      JoinLength(items, ", ");
    }
  }

  /** The item list as it appears in the text: `items?.join(', ') || 'General goods'`. */
  function ItemsText(items: Option<seq<string>>): string {
    if items.Some? && Join(items.value, ", ") != "" then Join(items.value, ", ")
    else "General goods"
  }

  /** createEmbeddingText. */
  function CreateEmbeddingText(merchant: string, category: string, items: Option<seq<string>>): (text: string)
    ensures |Header(merchant, category)| < |text|
    ensures text[..|Header(merchant, category)|] == Header(merchant, category)
  {
    var header, tail := Header(merchant, category), ItemsText(items);
    assert (header + tail)[..|header|] == header;
    header + tail
  }

  /** The text ends in the fallback exactly when there is no item text; otherwise it
      ends in the joined items. */
  lemma EmbeddingTextItems(merchant: string, category: string, items: Option<seq<string>>)
    ensures var text := CreateEmbeddingText(merchant, category, items);
            var tail := text[|Header(merchant, category)|..];
            && ((items.None? || |items.value| == 0 || (|items.value| == 1 && items.value[0] == ""))
                ==> tail == "General goods")
            && ((items.Some? && (|items.value| > 1 || (|items.value| == 1 && items.value[0] != "")))
                ==> tail == Join(items.value, ", "))
  {
    var header := Header(merchant, category);
    assert (header + ItemsText(items))[|header|..] == ItemsText(items);
    if items.Some? {
      JoinEmpty(items.value);
    }
  }
}
