# Retrieval core of a Rust chat backend, modelled in Dafny

The service keeps text passages with precomputed embedding vectors, loaded
once from an Azure table. It ranks the passages against the embedding of a
user query. Its `/chat` endpoint keeps one shared conversation history and
passes it to a language-model chain. This project models three parts of it
and proves properties about them:

- **Loading** (`AzureTable`, from `src/azure_table.rs`). `get_all_vectors`
  reads a stream of pages and turns every raw row into a
  `FormattedVectorEntity`:
  - keys are copied;
  - a missing `timestamp` becomes `"unknown"`;
  - a missing `content` becomes `"N/A"`;
  - the vector string is split on `','` and only the pieces that parse are
    kept.

  An error page aborts the whole load.
- **Ranking** (`Agent`, from `src/agent.rs`). `find_top_k_matches` scores
  every stored entity, sorts by descending score with a stable sort, keeps
  `k` and projects each kept entity to its `content`. `process_message`
  uses `k = 5` and returns `None` when the embedding failed or nothing
  matched.
- **Chat handler** (`App`, from `src/main.rs`). `answer` works on the shared
  history:
  1. it embeds the message, and a failure panics before the history is
     touched;
  2. it appends a Human message;
  3. it hands the history to the chain;
  4. it appends an AI message only when the chain succeeds.

  It replies `200` with the answer, or `500` with `"Error: "` and the error
  text.

What stays abstract, and is passed in as a parameter:

- the similarity measure, any function `(seq<F>, seq<F>) -> int`. The
  element type `F` stands for `f32`, and `int` is a total order;
- the number parser, any partial function `string -> Option<F>`;
- the stream of table pages, a `seq` of `Result`s;
- the embedding outcome, an `Option`;
- the chain, a function from its input variables to `Result<string, string>`.

Stored entities are referred to by their load position (`Match.idx`), as
the source holds references into the store. Two facts make the sort
exact:

- a stable sort by descending score of a list in load order is the same as
  a strict sort by `Before`: higher score first, then the earlier load
  position.
- `RankedUnique` proves that `Before`-sorted lists with the same elements
  are equal.

So the array insertion sort in the model (`SortByScore`) and the reference
sort `SortDesc` have the one possible output of Rust's `sort_by`.

The model follows the code as written:

- A vector token that does not parse is dropped from the vector; the record
  itself is always kept (src/azure_table.rs:60-72).
- An error on any page aborts the whole load (src/azure_table.rs:57).
- A failed embedding panics before the history is locked, so nothing is
  appended (src/main.rs:78-83).
- A failed chain call appends no AI message; the Human message stays
  (src/main.rs:101-106).
- Scores form a total order; the comparator's NaN fallback to `Equal`
  (src/agent.rs:75) is outside the model.

## Model

| member | source | states |
|---|---|---|
| `AzureTable.Split` | src/azure_table.rs:62 | splitting always yields at least one piece (the empty string gives one empty piece) |
| `AzureTable.SplitPiecesHaveNoComma` | src/azure_table.rs:60-62 | no piece of a split contains `','` |
| `AzureTable.SplitCount` | src/azure_table.rs:60-62 | the number of pieces is the number of commas plus one |
| `AzureTable.JoinSplit` | src/azure_table.rs:60-62 | joining the pieces with `','` gives back the original vector string |
| `AzureTable.SplitAfterPiece` | src/azure_table.rs:62 | a comma-free prefix followed by `','` is split off as exactly one piece |
| `AzureTable.SplitJoin` | src/azure_table.rs:62 | splitting a `','`-join of comma-free pieces gives back those pieces (the inverse direction of `JoinSplit`) |
| `AzureTable.FilterParse` | src/azure_table.rs:63-64 | the parsed vector is never longer than the piece list |
| `AzureTable.FilterParseCharacterized` | src/azure_table.rs:60-64 | the parsed vector has one value per parseable piece, in order: its `t`-th value is the parse of the `t`-th piece that parses, and those pieces are taken in increasing position |
| `AzureTable.ParsedPositionsExact` | src/azure_table.rs:63 | a piece's value is kept iff the piece parses, so an unparseable piece is skipped and nothing else is |
| `AzureTable.FilterParseAppend` | src/azure_table.rs:63-64 | filter-parsing two piece lists one after the other is the concatenation of the results |
| `AzureTable.FilterParseAllParse` | src/azure_table.rs:63-64 | when every piece parses, nothing is dropped and value `i` is the parse of piece `i` |
| `AzureTable.ParseVector` | src/azure_table.rs:60-64 | the vector of a row is the filter-parse of its `','`-pieces, and has at most comma-count-plus-one values |
| `AzureTable.Format` | src/azure_table.rs:66-72 | `id` and `category` copied unchanged; `timestamp` is the given one or `"unknown"`; `content` is the given one or `"N/A"`; the vector is the filter-parse of the `','`-pieces of the raw vector string, so at most comma-count-plus-one values. The conversion never fails |
| `AzureTable.FirstError` | src/azure_table.rs:56-57 | the position of the first error page: that page is an error and all pages before it are good |
| `AzureTable.FirstErrorIs` | src/azure_table.rs:56-57 | an error page preceded only by good pages is the first error page |
| `AzureTable.FormatAllAppend` | src/azure_table.rs:59-72 | converting two entity lists one after the other gives the conversion of their concatenation |
| `AzureTable.PushFormatted` | src/azure_table.rs:59-73 | the inner loop appends the conversion of every entity of one page, one per entity and in order, after what was already loaded |
| `AzureTable.EntitiesAppend` | src/azure_table.rs:56-59 | the entities of two runs of good pages are those of the first run followed by those of the second (load order is page order) |
| `AzureTable.GetAllVectors` | src/azure_table.rs:50-77 | succeeds iff every page is good, and then returns exactly one formatted entity per raw entity of every page, in order. Otherwise it returns the first error page's error and nothing else |
| `Agent.SortDescPermutes` | src/agent.rs:75 | the reference sort is a permutation of its input |
| `Agent.InsertPermutes` | src/agent.rs:75 | inserting into a list adds exactly the inserted element |
| `Agent.InsertRanked` | src/agent.rs:75 | inserting a new element into a ranked list keeps it ranked |
| `Agent.SortDescRanked` | src/agent.rs:75 | the reference sort of a duplicate-free list is strictly ordered by score descending, then load position |
| `Agent.RankedTail` | src/agent.rs:75 | the tail of a ranked list is ranked |
| `Agent.RankedHeadFirst` | src/agent.rs:75 | the head of a ranked list comes before every other element of it |
| `Agent.RankedSameHead` | src/agent.rs:75 | two ranked lists with the same elements start with the same element |
| `Agent.RankedUnique` | src/agent.rs:75 | two ranked lists with the same elements are equal, so the stable descending sort has a single result |
| `Agent.InScored` | src/agent.rs:67-72 | every element of the scored list refers to a stored entity and carries that entity's score |
| `Agent.Ranking` | src/agent.rs:67-75 | the sorted scored list is ranked (non-increasing score, ties in load order), is a permutation of the one-score-per-entity list, and every entry holds its entity's score |
| `Agent.RankingCovers` | src/agent.rs:67-75 | the sorted list has one entry per stored entity, and every stored entity appears in it |
| `Agent.TopKLength` | src/agent.rs:78-81 | the result has `min(k, n)` elements, and it is empty iff `k = 0` or the store is empty |
| `Agent.TopKDistinctEntities` | src/agent.rs:75-81 | each returned string is the `content` of the stored entity its match refers to, and no entity is returned twice |
| `Agent.TopKNonIncreasing` | src/agent.rs:75 | the scores of the returned entities do not increase along the result |
| `Agent.TopKStable` | src/agent.rs:75 | returned entities with equal scores appear in load order |
| `Agent.TopKDominates` | src/agent.rs:75-79 | every returned entity is ranked ahead of any stored entity that was left out: it scores at least as high, and on a tie it was loaded earlier |
| `Agent.TopKFirstIsBest` | src/agent.rs:75-79 | for `k > 0`, the first result has the highest score in the store, and among equal highest scores it is the earliest loaded |
| `Agent.TopKPrefixOfPermutation` | src/agent.rs:75-81 | the result is a prefix of a permutation of the store projected to `content` |
| `Agent.SwapDown` | src/agent.rs:75 | exchanges two adjacent entries, leaves the rest alone and preserves the multiset |
| `Agent.InsertLast` | src/agent.rs:75 | one stable insertion step: the prefix up to `i` becomes ranked, the rest is unchanged and the multiset is preserved |
| `Agent.SortByScore` | src/agent.rs:75 | sorting a load-ordered match list in place leaves it ranked (descending score, stable) and a permutation of the original |
| `Agent.FindTopKMatches` | src/agent.rs:65-82 | the scoring loop, the in-place sort and the take/map return exactly `TopK` of the store, whose properties are the `TopK*` lemmas |
| `Agent.ProcessMessage` | src/agent.rs:38-54 | `None` iff the embedding failed or the store is empty; otherwise `Some` of the top-5 contents |
| `App.Respond` | src/main.rs:94-106 | status 200/OK with the response text on success; status 500 with `"Error: "` followed by the error text on failure |
| `App.ConversationCounts` | src/main.rs:83-98 | in a history where every AI message follows a Human message, there are never more AI messages than Human ones |
| `App.AppState.constructor` | src/main.rs:43-47 | the chat history starts empty; the vectors are the loaded ones |
| `App.AppState.Answer` | src/main.rs:71-108 | a failed embedding leaves the history unchanged and gives no reply. Otherwise a Human message with the payload is appended; the chain gets the old history plus that message; on success an AI message with the answer follows (growth 2, OK), on failure nothing more is appended (growth 1, `"Error: "` + error); the old history is always a prefix; every AI message follows a Human one; `vectors` is a constant field, never written |

## Left out

- `cosine_similarity` (src/agent.rs:57-62) is left out. It is `f32`
  arithmetic with `sqrt`, truncation by `zip`, and NaN for zero norms.
  The score is an abstract function into `int`.
- The NaN-to-`Equal` fallback of the comparator is left out, because scores
  are totally ordered. The cast of the query from `f64` to `f32` is left
  out too: the query is taken as `seq<F>`.
- `f32` parsing is an abstract partial parser.
- `SortByScore` is an insertion sort, not Rust's merge-based `sort_by`.
  `RankedUnique` shows that every stable sort gives the same output, so
  only the running time differs.
- `Agent::new`, `query_openai`, `initialize_agent`, `SYSTEM_PROMPT`,
  `executor.invoke`, `FastEmbed::embed_query` and `prompt_args!` are left
  out. They are embedder and network initialisation or external calls.
  Their outcomes are parameters.
- The system prompt is not part of `ModelInput`. It is a constant string.
- The JSON serialisation of the vectors into the prompt context is left
  out. The context is the vector list itself.
- The tokio `Mutex` is left out, and so is holding the lock across the
  chain call. This is concurrency. `Answer` is one atomic step on the
  history.
- Axum routing, `root`, the TCP listener, `fetch_vectors` and
  `fetch_vectors_internal` are left out. They are HTTP glue.
- The demonstration `main` of src/azure_table.rs, environment variables,
  credentials, logging (`eprintln!`, `println!`) and the `type_id` print
  are left out. They are I/O and configuration.
- src/telegram.rs is not part of this model. It is an HTTP POST driven by
  environment variables.
- `AppState.fastembed` is not a field of the model. The embedding outcome
  is passed to `Answer` instead.
