# Expense retrieval core, modelled in Dafny

This project models the computational core of a receipt-scanning expense tracker
written in TypeScript and React. It covers three parts.

- **Vector service** (`services/vectorService.ts`):
  - cosine similarity between two embedding vectors;
  - top-K retrieval of the most similar past expenses: filter to records that have an
    embedding, score each, stable sort by descending score, keep the first `topK`;
  - the canonical text that is sent to the embedding model.
- **Dashboard aggregates** (`components/Dashboard.tsx`):
  - the total spent;
  - the per-category sums built in a dictionary;
  - the five most recent expenses;
  - the "top category" card.
- **Scanner** (`components/Scanner.tsx`):
  - the `upload → analyzing → review/upload` step machine of `processImage`, with the
    three service calls as parameters;
  - the record that `handleSave` builds, with its `||` fallbacks.

Modules:

| file | module | what it holds |
|---|---|---|
| `types.dfy` | `Types` | `Expense`, `Partial<Expense>`, `SimilarityResult`, `AnalysisResult`, `Option`/`Result`, and JavaScript's `x \|\| fallback` for strings and numbers |
| `array_ops.dfy` | `ArrayOps` | `Array.prototype.sort` with a descending-key comparator, as a stable insertion sort `SortDesc`, characterised as the unique non-increasing rearrangement that keeps the order of equal keys; `slice(0, k)` as `Take`; `map` as `Map`; the top-K predicate `IsTopK` |
| `vector_service.dfy` | `VectorService` | cosine similarity, retrieval, embedding text |
| `dashboard.dfy` | `Dashboard` | the memoised dashboard figures |
| `scanner.dfy` | `Scanner` | the analysis pipeline, the component state as a class, the saved record |

How the numbers and the state are modelled:

- Numbers are `real`.
- `Math.sqrt` is a parameter `sqrt` of type `SquareRoot`: any function that is positive
  on positive arguments. That is all the source relies on, since it guarantees that a
  non-zero norm never divides by zero.
- The loops of `cosineSimilarity` and of `categoryData` are methods with loop invariants.
  They are proved against the specification functions `Cosine` and `CategorySum`.
- The React state of the scanner (`step`, `imagePreview`, `analysis`) is a class whose
  methods update those fields. A ghost `events` field records, in order, every call
  of the component's state setters (`setImagePreview`, `setStep`, `setAnalysis`) and
  every service call.

## Model

| member | source | states |
|---|---|---|
| VectorService.Cosine | services/vectorService.ts:4-18 | no contract: the reference definition of the score, 0 on a length mismatch or a zero sum of squares, otherwise the dot product over the product of the square roots |
| VectorService.CosineSimilarity | services/vectorService.ts:4-19 | the loop computes exactly `Cosine(vecA, vecB)`: 0 on a length mismatch, 0 when either sum of squares is 0, and otherwise the dot product over the product of the square roots of the norms |
| VectorService.SumSq | services/vectorService.ts:13-14 | a sum of squares is never negative |
| VectorService.DotSelf | services/vectorService.ts:12-13 | the dot product of a vector with itself is its sum of squares |
| VectorService.SumSqZero | services/vectorService.ts:17 | a sum of squares is 0 exactly when every component is 0, so the zero-norm guard fires exactly on all-zero vectors, including the empty vector |
| VectorService.CosineZeroVector | services/vectorService.ts:17 | an all-zero vector scores 0 against any vector, on either side |
| VectorService.DotSymmetric | services/vectorService.ts:12 | the dot product does not depend on the order of its arguments |
| VectorService.CosineSymmetric | services/vectorService.ts:4-18 | cosine similarity is symmetric |
| VectorService.CosineSelf | services/vectorService.ts:17-18 | a non-zero vector scores 1 against itself, given a square root that squares back to its argument |
| VectorService.Embedded | services/vectorService.ts:29 | the filter keeps exactly the records whose embedding is present and non-empty, each at most as often as it occurs in the history |
| VectorService.EmbeddedCount | services/vectorService.ts:29 | the filter drops no occurrence: a record with an embedding is kept exactly as often as it occurs in the history, any other record never |
| VectorService.EmbeddedAppend | services/vectorService.ts:29 | the filter keeps history order: filtering two lists joined together gives the two filtered lists joined together |
| VectorService.Scored | services/vectorService.ts:30-33 | one result per kept record, in order, pairing the unmodified record with the cosine score of its own embedding |
| VectorService.ExpensesOfScored | services/vectorService.ts:30-33 | projecting the scored results back to expenses gives the kept records unchanged |
| VectorService.FindSimilarExpenses | services/vectorService.ts:21-39 | an absent query or an empty history gives `[]`, and no more than `topK` results are returned |
| VectorService.FindSimilarExpensesRanked | services/vectorService.ts:28-38 | with a query, the result holds the `min(topK, n)` highest-scoring of the `n` records that have an embedding, in non-increasing score order; equal scores keep their history order, because the sort is stable |
| VectorService.FindSimilarExpensesFromHistory | services/vectorService.ts:28-33 | every result is a history record with a non-empty embedding, and its score is the cosine of the query with that embedding |
| VectorService.FindSimilarExpensesNoRepeats | services/vectorService.ts:28-38 | no record is returned more often than it occurs in the history |
| VectorService.ScoredEmptyQuery | services/vectorService.ts:5 | an empty query scores 0 against every stored embedding, because the lengths differ |
| VectorService.FindSimilarExpensesEmptyQuery | services/vectorService.ts:5 | a present but empty query is not short-circuited by the guard at line 26; it returns the first `topK` records that have an embedding, in history order, each with score 0 |
| VectorService.CreateEmbeddingText | services/vectorService.ts:42-44 | the text starts with `Expense at {merchant} for {category}. Items: ` and has something after it |
| VectorService.Join | services/vectorService.ts:43 | no contract: `items.join(sep)`, the items with the separator between each two; `JoinLength` and `JoinEmpty` state its properties |
| VectorService.ItemsText | services/vectorService.ts:43 | no contract: `items?.join(', ') \|\| 'General goods'`; `EmbeddingTextItems` states its cases |
| VectorService.JoinLength | services/vectorService.ts:43 | `join` keeps every item and puts one separator between each two |
| VectorService.JoinEmpty | services/vectorService.ts:43 | `items.join(', ')` is empty exactly for no items or a single empty item |
| VectorService.EmbeddingTextItems | services/vectorService.ts:43 | after the header comes `General goods` when the items are absent or join to the empty string, and the joined items otherwise |
| ArrayOps.SortDescCharacterized | services/vectorService.ts:36 | the sort result is exactly the rearrangement that is non-increasing in the key and keeps the relative order of equal keys |
| ArrayOps.StableSortUnique | services/vectorService.ts:36 | two non-increasing sequences that agree on the order of every group of equal keys are equal |
| ArrayOps.SortDesc | services/vectorService.ts:36 | sorting is a permutation of its input |
| ArrayOps.SortDescNonIncreasing | services/vectorService.ts:36 | the comparator `b.score - a.score` orders the keys from largest to smallest |
| ArrayOps.SortDescKeepsOrder | services/vectorService.ts:36 | the sort is stable: the elements of each key keep their input order |
| ArrayOps.SortDescAllEqual | services/vectorService.ts:36 | when every key is equal, sorting changes nothing |
| ArrayOps.Take | services/vectorService.ts:38 | `slice(0, k)` has `min(k, n)` elements |
| ArrayOps.SortThenTake | services/vectorService.ts:36-38 | sorting then slicing gives the `k` largest keys, largest first, and stays stable |
| ArrayOps.MapSubMultiset | services/vectorService.ts:28-33 | mapping preserves "occurs at most as often as" |
| Dashboard.TotalSpent | components/Dashboard.tsx:14 | no contract: the `reduce` that adds the amounts from the front, starting at 0; `TotalSpentAppend` and `TotalSpentPermutation` state its properties |
| Dashboard.TotalSpentAppend | components/Dashboard.tsx:14 | the total of two lists joined together is the sum of their totals |
| Dashboard.TotalSpentPermutation | components/Dashboard.tsx:14 | the total does not depend on the order of the expenses |
| Dashboard.CategoryData | components/Dashboard.tsx:16-22 | one entry per distinct category of the expenses, with no duplicates; each value is the sum of the amounts of that category; the values add up to the total spent |
| Dashboard.Entries | components/Dashboard.tsx:21 | `Object.entries(data).map(...)`: one `{ name, value }` entry per key, in key order, with that key's value |
| Dashboard.AccumulateKnown | components/Dashboard.tsx:18-19 | adding an expense to a category already in the dictionary keeps the dictionary equal to the per-category sums of the expenses seen so far |
| Dashboard.AccumulateNew | components/Dashboard.tsx:18-19 | a new category is added once, at the end of the key order, with the expense's amount |
| Dashboard.SumValuesUpdate | components/Dashboard.tsx:19-21 | changing one dictionary slot changes the sum of the entries by the difference |
| Dashboard.EntriesAppend | components/Dashboard.tsx:19-21 | a new key adds one entry at the end of `Object.entries` |
| Dashboard.AccumulatedEntries | components/Dashboard.tsx:21 | after the last expense, the entries are exactly the categories, with their sums and the total |
| Dashboard.RecentActivity | components/Dashboard.tsx:24-26 | no contract: a copy sorted by descending date, then `slice(0, 5)`; `RecentActivityNewestFirst` states what it returns |
| Dashboard.RecentActivityNewestFirst | components/Dashboard.tsx:24-26 | `min(5, n)` expenses, newest first, taken without repeats from the list; equal dates keep their list order. The list itself is a value and is left as it was |
| Dashboard.TopCategory | components/Dashboard.tsx:54 | no contract: sort by descending value, then the first entry's name, or `N/A` when there is none or its name is empty; `TopCategoryIsFirstMax` states which entry wins |
| Dashboard.FirstMaxIndex | components/Dashboard.tsx:54 | the reference definition of the winner: the first entry whose value no entry exceeds |
| Dashboard.TopCategoryIsFirstMax | components/Dashboard.tsx:54 | the top category is the name of the first entry with the largest value; it is `N/A` for no entries or when that name is empty |
| Dashboard.EntriesNeedExpenses | components/Dashboard.tsx:16-22 | there are category entries only when there are expenses |
| Dashboard.ComputeStats | components/Dashboard.tsx:14-54 | the category values add up to the total; the top category is `N/A` without expenses; otherwise, unless it is `N/A`, it is a category of the expenses whose sum no other category exceeds |
| Scanner.SearchText | components/Scanner.tsx:40-44 | no contract: `createEmbeddingText(merchant \|\| '', category \|\| '', items)`; `SearchTextDefaults` states its cases |
| Scanner.Analyze | components/Scanner.tsx:34-58 | no contract: the `try` block as one value, the stored analysis or the error of the first call that rejects; `AnalyzeOutcome` and `AnalyzeResult` state its properties |
| Scanner.Run | components/Scanner.tsx:32-65 | no contract: the effects of one run in order, one literal trace per outcome; `RunOrder` states the order they keep |
| Scanner.SearchTextDefaults | components/Scanner.tsx:40-44 | a missing merchant or category is passed as `''`; present values are passed as they are, and the items are passed through |
| Scanner.AnalyzeOutcome | components/Scanner.tsx:34-64 | the analysis succeeds exactly when extraction, embedding and advice all resolve; otherwise it fails with the error of the first call that rejects |
| Scanner.AnalyzeResult | components/Scanner.tsx:45-58 | the stored analysis keeps the extracted fields, adds the query embedding itself, lists the ranked matches of that same embedding in order, and carries the advice and sentiment that the adviser returned for those matches |
| Scanner.SimilarFromHistory | components/Scanner.tsx:48-56 | at most three matches, each a history record with an embedding, none repeated beyond its occurrences in the history |
| Scanner.RunOrder | components/Scanner.tsx:32-65 | the step becomes `analyzing` before any service call; the run ends on `review` right after storing the analysis exactly when it succeeds; on failure it ends on `upload` and stores nothing |
| Scanner.ExtractRejected | components/Scanner.tsx:36-63 | proof step of `ProcessImage` and `RunOrder`, unfolding one path: the exact trace and result when extraction rejects (no further call, back to `upload`) |
| Scanner.EmbedRejected | components/Scanner.tsx:45-63 | proof step of `ProcessImage` and `RunOrder`, unfolding one path: the exact trace and result when embedding rejects (no advice asked for, back to `upload`) |
| Scanner.AdviseRejected | components/Scanner.tsx:51-63 | proof step of `ProcessImage` and `RunOrder`, unfolding one path: the exact trace and result when advice rejects (back to `upload`, no analysis) |
| Scanner.AllResolved | components/Scanner.tsx:53-59 | proof step of `ProcessImage` and `RunOrder`, unfolding one path: the exact trace and result when all calls resolve (analysis stored, then `review`) |
| Scanner.NewExpense | components/Scanner.tsx:69-80 | the fallbacks are: merchant `Unknown`, amount 0, currency `USD`, today's date, category `Uncategorized`; merchant, currency and category are never empty; tax, items and embedding are copied unchanged; the preview image is kept only when it is non-empty |
| Scanner.SavedEmbeddingIsQuery | components/Scanner.tsx:45-78 | the saved record stores the very embedding that was used as the similarity query |
| Scanner.Scanner.constructor | components/Scanner.tsx:14-16 | the component starts on `upload`, with no preview and no analysis |
| Scanner.Scanner.ProcessImage | components/Scanner.tsx:32-65 | the new step, the analysis and the event log are those of `Analyze`/`Run`; the analysis is left untouched on failure; the preview is unchanged; the state invariant `Valid` (never left on `analyzing`, and `review` implies an analysis) is preserved |
| Scanner.Scanner.LoadImage | components/Scanner.tsx:23-26 | the data URL becomes the preview, logged as `SetPreview`, then the payload is analysed as in `ProcessImage` |
| Scanner.Scanner.HandleSave | components/Scanner.tsx:67-83 | a record exists exactly when an analysis exists, and it is `NewExpense` of the extracted data; on the review screen of a valid state there is always one |

## Left out

- Floating point is not modelled: no rounding, NaN or Infinity. Scores are reals, so the model does not claim that they lie in [-1, 1].
- `Math.sqrt` is a parameter that is positive on positive arguments. `VectorService.CosineSelf` therefore assumes a square root that squares back to its argument.
- The in-place sorts (`results.sort` in services/vectorService.ts:36, the sort in components/Dashboard.tsx:25 and line 54) are modelled on values: `SortDesc` returns a new sequence. Line 54 therefore does not model the mutation of the memoised `categoryData` array. That mutation changes only its order, which no other figure depends on.
- `Object.entries` lists integer-like keys first, in numeric order. The model keeps every key in insertion order. `Dashboard.CategoryData`'s contract states nothing about the order of the entries.
- Prototype keys of a plain object, such as a category named `__proto__`, are not modelled. The dictionary is a Dafny `map`.
- Date parsing (`new Date(d).getTime()`) is a parameter `timeOf: string -> real`. Invalid dates (NaN) are not modelled.
- `crypto.randomUUID()` and today's date (`new Date().toISOString().split('T')[0]`) are parameters of `HandleSave`.
- `FileReader`, the `base64.split(',')[1]` step, `alert` and `console.error` are not modelled. `LoadImage` receives the data URL and its payload as two inputs.
- `Scanner.Scanner.ProcessImage` is modelled as one atomic step. The awaits inside it, and anything else that could run between them, are not interleaved.
- `Scanner.Scanner.HandleSave` checks only for an analysis. In the model `extractedData` is always present; it is built by the analysis itself.
- `onSave`, `onCancel`, App.tsx (local storage, navigation, `addExpense`) and all rendering are not part of this model.
- services/geminiService.ts is not part of this model. Its three calls are parameters that either resolve (`Success`) or reject (`Failure`). The real `generateEmbedding` and `getProactiveAdvice` catch their own errors, so in practice only extraction rejects; the model allows any of the three to reject.
- `VectorService.FindSimilarExpenses`: `topK` is a `nat`. A negative `topK` makes `slice` drop elements from the end; that case is not modelled.

An empty query is not short-circuited: at services/vectorService.ts:26 an empty array is truthy, so it is scored like any other query and scores 0 against every record through the length guard at line 5; see `VectorService.FindSimilarExpensesEmptyQuery`.
