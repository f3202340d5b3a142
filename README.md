# Grafana test-logs datasource, modelled in Dafny

This project models the core of a Grafana log datasource plugin and proves
properties of it. It covers two source files.

- `src/datasource.ts` (module `Datasource`, file `datasource.dfy`) holds five pieces:
  - `modifyQuery` appends an inclusion or exclusion clause to a query's filter text.
  - `processLogsToDataFrames` splits fetched log records into five parallel columns plus metadata.
  - `getLogRowContext` builds the six-hour context window around a selected row.
  - `getLogRowContextQuery` derives the context query.
  - `query` has a one-shot path and a streaming path. The one-shot path fetches once per target and merges the frames. The streaming path fetches a window that moves 10 s later on every tick.
- `src/data.ts` (module `Data`, file `data.dfy`) holds `createLogs`. It builds `count` records whose fields derive from their index, then sorts them by timestamp in place.
- `numbertext.dfy` (module `NumberText`) renders integers as decimal text, as a JavaScript template literal does. It also proves that the digits of a non-negative integer parse back to it, and that distinct indices render distinctly.

How the source's environment is represented:

- The record fetcher is a parameter of type `Fetcher`: a total function from (limit, from, to, filter text) to either records or a transport error (`FetchError` with status and status text).
- The reactive plumbing becomes ordinary control flow. An observable's behaviour is an `Outcome`: it emits one response, fails with an error, or completes without emitting.
- A streaming tick is an index `v`.
- In `createLogs`, the random timestamp draw for record `i` is the supplied integer `draw(i)`.

`processLogsToDataFrames` is a loop that pushes into five column sequences. The multi-target merge in `query` is two nested loops. `createLogs` fills an array in a loop and then sorts that array in place with an insertion sort. All three are methods with loop invariants, proved against specification predicates and functions:

- `IsFrameOf` says what a frame must hold.
- `IsOneShotOutcome` and `IsTickOutcome` say what a query must produce.
- `Flatten` is the merged frame list.
- `SortByTimestamp` is a stable insertion sort on sequences. Lemmas prove it sorted, a permutation and stable.

The model follows the code as written:

- Records are framed in the order fetched. They are not sorted first.
- Hidden targets are not filtered out.
- A one-shot query with no targets emits nothing. It does not produce an empty Done response, because the source calls `forkJoin` on an empty list.
- A failed fetch fails the one-shot query. Which error is reported when several targets fail depends on timing, so the contract only says it is the error of some failing target.
- When the original query's text is undefined, the context query renders it as `"undefined"`, because a template literal does that. `modifyQuery` renders it as the empty string instead.

## Model

| member | source | states |
|---|---|---|
| `Datasource.ModifyQuery` | src/datasource.ts:78-95 | The result is the query with only `queryText` changed, and that text is always defined. With action `ADD_FILTER` and a non-empty key and value, the text is the old text (empty if undefined) + `" key=value"`. With `ADD_FILTER_OUT`, it gets `" key!=value"`. For any other action type, or a missing or empty key or value, the text is the old text. |
| `Datasource.ModifyQueryAppendsClause` | src/datasource.ts:80-92 | The new text is the old text (empty if undefined) followed by the clause the action contributes on its own (`FilterClause`). |
| `Datasource.ModifyQueryAppendsClauses` | src/datasource.ts:78-95 | Two successive actions append their clauses after the original text, in the order applied. |
| `Datasource.ModifyQueryRepeated` | src/datasource.ts:79-94 | An action that adds no clause is idempotent. A filter action lengthens the text each time it is applied. |
| `Datasource.FilterAndFilterOutDiffer` | src/datasource.ts:81-91 | Including and excluding the same non-empty key and value give different texts. |
| `Datasource.ProcessLogsToDataFrames` | src/datasource.ts:171-206 | The frame has five columns, each as long as the input. Row i holds record i's timestamp, body, severity and id, and all of its other properties as attributes, so input order is kept. `refId` is the target's. The metadata is log-lines type, visualisation `"logs"`, the target's limit and search words `[queryText]`. |
| `Datasource.FrameRowsRestoreLogs` | src/datasource.ts:177-184 | Framing loses nothing: row i reassembles into exactly record i, and no extracted property reappears in the attributes. |
| `Datasource.FrameOfConcatenation` | src/datasource.ts:177-184 | Framing two record lists back to back gives the concatenated columns, so nothing is reordered or sorted. |
| `Datasource.FrameDetermined` | src/datasource.ts:171-206 | The records and the target determine the frame completely. |
| `Datasource.FlattenSingleFrames` | src/datasource.ts:64-74 | When every per-target result carries one frame, the merged list has one frame per result, and frame i comes from result i. |
| `Datasource.MergeResults` | src/datasource.ts:64-74 | The nested push loops produce a Done response whose frames are all frames of all results, in result order. |
| `Datasource.QueryOnce` | src/datasource.ts:51-75 | With no targets, nothing is emitted. If any target's fetch fails, the query fails with the error of some failing target. Otherwise it emits one Done response with exactly one frame per target (hidden ones included), in target order, each framed from that target's fetch over the request range. With a single target, that target's own response is emitted. |
| `Datasource.OneShotOutcomeDetermined` | src/datasource.ts:52-74 | Any two one-shot outcomes of the same request agree on success or failure, and on success they carry the same response. |
| `Datasource.TickWindow` | src/datasource.ts:40-42 | The window of tick v has the requested width and starts and ends `v * 10000` ms after the requested range. |
| `Datasource.StreamTick` | src/datasource.ts:36-49 | Tick v uses only the first target. It fetches over the shifted window and emits one Streaming response holding that target's frame, or fails with the fetch error. |
| `Datasource.RunQuery` | src/datasource.ts:32-75 | Live streaming gives the tick outcome of `targets[0]`. Otherwise the query gives the one-shot outcome. |
| `Datasource.ContextTimeRange` | src/datasource.ts:120-124 | The window is exactly 6 h (21,600,000 ms) wide. It ends at the row's time when the direction is Forward, and starts there otherwise, including when options or direction are absent. |
| `Datasource.GetLogRowContextQuery` | src/datasource.ts:101-113 | There is no context query when no query is given. Otherwise the context query is the original with only its text changed, to the rendered original text + `" log-context + "` + the row's uid. |
| `Datasource.ContextQueryKeepsText` | src/datasource.ts:108 | Removing the marker and the uid from the context query's text gives back the original text as rendered. |
| `Datasource.LogRowContextRequest` | src/datasource.ts:126-145 | The context request is not streaming and uses the context window. Its targets are `[contextQuery]`, or `[]` without a query. Its request id is `"context-"` + the query's refId, or `"undefined"`. |
| `Datasource.GetLogRowContext` | src/datasource.ts:115-160 | Without a query, the call settles with no element. Otherwise, when the context query's fetch over the context window fails, the result is the fixed context error message with the fetch's status and status text. When it succeeds, the result is a Done response with the single frame built for the context query. |
| `Data.Built` | src/data.ts:20-38 | The loop builds exactly `count` records, and none when `count` is not positive. |
| `Data.BuiltRecordFields` | src/data.ts:22-37 | Record i has timestamp `draw(i)` and id `"id " + from + to + i`. Its severity is `"error"` exactly when i mod 5 is 1, and `"info"` otherwise. Its number is i + 1000, its string is `"string " + i` and its object key is `"value " + i`. Its body repeats its own timestamp, line index, id, number and string. |
| `Data.BuiltIdsDistinct` | src/data.ts:23 | Within one call, the ids of different records differ. |
| `Data.BuiltIndexRecoverable` | src/data.ts:25-35 | The index can be parsed back from the string field, and it agrees with the number field and the object key. |
| `Data.BuiltErrorCount` | src/data.ts:24 | Among n records, exactly (n + 3) / 5 have severity `"error"`. |
| `Data.InsertPermutes` | src/data.ts:40 | One insertion step only adds the inserted record to the multiset. |
| `Data.InsertSorted` | src/data.ts:40 | Inserting into a timestamp-sorted list keeps it sorted. |
| `Data.InsertStable` | src/data.ts:40 | Inserting keeps, for each timestamp, the order of the records that carry it, and places the new record after them. |
| `Data.SortByTimestampSorted` | src/data.ts:40 | The sort yields a list whose timestamps do not decrease. |
| `Data.SortByTimestampPermutes` | src/data.ts:40 | The sort only reorders: same multiset of records. |
| `Data.SortByTimestampStable` | src/data.ts:40 | The sort is stable: records with equal timestamps keep their input order. |
| `Data.InsertLast` | src/data.ts:40 | One in-place pass moves element i left past the run of elements directly before it whose timestamps are later than its own (every earlier later element when the prefix is sorted), as `Insert` describes, and leaves the rest of the array untouched. |
| `Data.SortInPlace` | src/data.ts:40 | After the in-place sort, the array holds `SortByTimestamp` of its old contents. |
| `Data.CreateLogs` | src/data.ts:19-41 | The result has `count` records (none when `count` is not positive). It is sorted by timestamp and is a permutation of the records the loop built. Records with equal timestamps keep their build order. When every draw lies in `[from, to]`, every timestamp does too. |
| `NumberText.NatToString` | src/data.ts:23-28 | A non-negative integer renders as a non-empty string of digits with no leading zero. |
| `NumberText.IntToString` | src/data.ts:23-28 | An integer renders with a leading minus sign exactly when it is negative. |
| `NumberText.ParseNatToString` | src/data.ts:23-28 | Parsing the rendered digits gives back the number. |
| `NumberText.NatToStringInjective` | src/data.ts:23 | Distinct numbers render as distinct text. |

## Left out

- The reactive and asynchronous plumbing is not modelled: `interval`, `mergeMap`, `forkJoin`, `lastValueFrom`, `catchError`, promises and `setTimeout` (src/datasource.ts:39-74 and 148-159; src/data.ts:11-17). Fetching is a function parameter, and the model covers one streaming tick at a time.
- The model does not cover how a stream behaves over time. That includes cancelling the subscription, the 1000 ms cadence, inner fetches that finish out of order under `mergeMap`, and a failed tick ending the whole stream.
- StreamTick requires at least one target: with none, the source reads `targets[0]` as undefined, and the model does not define that case.
- The random draw in `createLogs` uses floating-point arithmetic. It is replaced by a supplied integer per index.
- The JavaScript engine's sort algorithm is not specified. The in-place sort is modelled as an insertion sort whose contract is what the language guarantees: sorted by the comparator, stable and a permutation. The comparator `a.timestamp - b.timestamp` is taken on integers, so NaN and rounding do not arise.
- CreateLogs: pushing onto an initially empty array is modelled as writing slot i of an array allocated with `count` slots.
- The `fetchLogs` wrapper in src/data.ts only delays by 300 ms, so it is not modelled. The record source imported by src/datasource.ts (`mockDataRequest`) and the query type file (`types`) are not part of this model. The query's fields refId, queryText and limit, and the record's shape, are taken from how src/datasource.ts uses them. `hide` is the host query type's flag; src/datasource.ts never reads it, and the model keeps it only to show that nothing filters on it.
- JavaScript numbers are modelled as unbounded integers. Exponential notation for magnitudes of 1e21 and above, and non-integer timestamps, are not modelled.
- Grafana library calls are not modelled: `createDataFrame` (the frame is a plain datatype with five named columns), `dateTime`, `rangeUtil.calculateInterval`, `Date.now` and `CoreApp`. So the context request's interval, start time, timezone, app, scoped variables and inspector flag are not modelled.
- `testDatasource` (src/datasource.ts:163-169) and `showContextToggle` (src/datasource.ts:97-99) return constants and are not modelled.
- `src/components/QueryEditor.tsx` only forwards an input change into `queryText`. It is not part of this model.
