/** The log datasource (src/datasource.ts): query filter rewriting, turning
    fetched log records into a columnar frame, the context look-around
    window and query, and the one-shot and streaming query paths.

    The record fetcher is a parameter (a total function from limit, window
    and filter text to either records or a transport error); the reactive
    plumbing (interval, mergeMap, forkJoin, lastValueFrom) becomes ordinary
    control flow, and a streaming tick is an index. */
module Datasource {

  datatype Option<T> = None | Some(value: T)

  // ---------------------------------------------------------------------
  // Data model
  // ---------------------------------------------------------------------

  /** A JavaScript value held by a log record. */
  datatype Value =
    | Num(n: int)
    | Str(s: string)
    | Bool(b: bool)
    | Obj(fields: map<string, Value>)

  /** The four properties that framing pulls out of each record. */
  const ExtractedKeys: set<string> := {"timestamp", "body", "severity", "id"}

  predicate IsLog(o: map<string, Value>) {
    && "timestamp" in o && o["timestamp"].Num?
    && "body" in o && o["body"].Str?
    && "severity" in o && o["severity"].Str?
    && "id" in o && o["id"].Str?
  }

  /** A fetched log record: a JavaScript object carrying a numeric
      timestamp and string body, severity and id, plus any other
      properties. */
  type Log = o: map<string, Value> | IsLog(o)
    witness map["timestamp" := Num(0), "body" := Str(""), "severity" := Str(""), "id" := Str("")]

  /** `...rest` of the destructuring: every property but the extracted four. */
  function Rest(log: Log): map<string, Value> {
    var o: map<string, Value> := log;
    o - ExtractedKeys
  }

  /** One query target. `queryText` may be undefined; `hide` is carried
      along but never consulted. */
  datatype Query = Query(refId: string, queryText: Option<string>, limit: int, hide: Option<bool>)

  /** Milliseconds since the epoch. */
  datatype TimeRange = TimeRange(from: int, to: int)

  datatype FrameType = LogLines

  datatype FrameMeta = FrameMeta(
    frameType: FrameType,
    preferredVisualisationType: string,
    limit: int,
    searchWords: seq<Option<string>>)

  /** A log frame: five parallel columns and metadata. */
  datatype Frame = Frame(
    refId: string,
    timestamp: seq<int>,
    body: seq<string>,
    severity: seq<string>,
    id: seq<string>,
    attributes: seq<map<string, Value>>,
    meta: FrameMeta)

  datatype LoadingState = Done | Streaming

  datatype Response = Response(data: seq<Frame>, state: LoadingState)

  datatype Request = Request(targets: seq<Query>, range: TimeRange, liveStreaming: bool, requestId: string)

  /** A failed fetch, as the transport reports it. */
  datatype FetchError = FetchError(status: int, statusText: string)

  datatype Fetched = Logs(logs: seq<Log>) | FetchFailed(error: FetchError)

  /** The record source: (limit, from, to, filter text) to records or an error. */
  type Fetcher = (int, int, int, Option<string>) -> Fetched

  /** What a query observable does: emit one response, fail, or complete
      without emitting anything. */
  datatype Outcome = Emitted(response: Response) | Failed(error: FetchError) | NoEmission

  // ---------------------------------------------------------------------
  // modifyQuery
  // ---------------------------------------------------------------------

  /** A fix action from the log details view; `options` is a string map
      that may lack either entry. */
  datatype FixAction = FixAction(actionType: string, options: Option<map<string, string>>)

  /** `action.options?.[name]` is truthy: present and not the empty string. */
  predicate HasOption(action: FixAction, name: string) {
    action.options.Some? && name in action.options.value && action.options.value[name] != ""
  }

  predicate HasKeyAndValue(action: FixAction) {
    HasOption(action, "key") && HasOption(action, "value")
  }

  /** `query.queryText ?? ''` */
  function TextOrEmpty(text: Option<string>): string {
    match text
    case Some(s) => s
    case None => ""
  }

  function ModifyQuery(query: Query, action: FixAction): (r: Query)
    ensures r == query.(queryText := r.queryText)
    ensures r.queryText.Some?
    ensures action.actionType == "ADD_FILTER" && HasKeyAndValue(action) ==>
      r.queryText.value == TextOrEmpty(query.queryText) + " "
        + action.options.value["key"] + "=" + action.options.value["value"]
    ensures action.actionType == "ADD_FILTER_OUT" && HasKeyAndValue(action) ==>
      r.queryText.value == TextOrEmpty(query.queryText) + " "
        + action.options.value["key"] + "!=" + action.options.value["value"]
    ensures action.actionType !in {"ADD_FILTER", "ADD_FILTER_OUT"} || !HasKeyAndValue(action) ==>
      r.queryText.value == TextOrEmpty(query.queryText)
  {
    var queryText := TextOrEmpty(query.queryText);
    var newText :=
      if action.actionType == "ADD_FILTER" then
        (if HasKeyAndValue(action)
         then queryText + " " + action.options.value["key"] + "=" + action.options.value["value"]
         else queryText)
      else if action.actionType == "ADD_FILTER_OUT" then
        (if HasKeyAndValue(action)
         then queryText + " " + action.options.value["key"] + "!=" + action.options.value["value"]
         else queryText)
      else queryText;
    query.(queryText := Some(newText))
  }

  /** The clause an action contributes to the filter text, on its own. */
  function FilterClause(action: FixAction): string {
    if !HasKeyAndValue(action) then ""
    else
      var key := action.options.value["key"];
      var value := action.options.value["value"];
      if action.actionType == "ADD_FILTER" then " " + key + "=" + value
      else if action.actionType == "ADD_FILTER_OUT" then " " + key + "!=" + value
      else ""
  }

  /** Applying an action appends its clause to the text. */
  lemma ModifyQueryAppendsClause(query: Query, action: FixAction)
    ensures ModifyQuery(query, action).queryText == Some(TextOrEmpty(query.queryText) + FilterClause(action))
  {
    var base := TextOrEmpty(query.queryText);
    if HasKeyAndValue(action) {
      var key := action.options.value["key"];
      var value := action.options.value["value"];
      assert base + " " + key + "=" + value == base + (" " + key + "=" + value);
      assert base + " " + key + "!=" + value == base + (" " + key + "!=" + value);
    } else {
      assert base + "" == base;
    }
  }

  /** Successive actions append their clauses in the order applied, after
      the original text (an undefined text counting as empty). */
  lemma ModifyQueryAppendsClauses(query: Query, first: FixAction, second: FixAction)
    ensures ModifyQuery(ModifyQuery(query, first), second).queryText
         == Some(TextOrEmpty(query.queryText) + FilterClause(first) + FilterClause(second))
  {
    ModifyQueryAppendsClause(query, first);
    ModifyQueryAppendsClause(ModifyQuery(query, first), second);
  }

  /** An action that does not add a clause only turns an undefined text
      into the empty text, so applying it again changes nothing; a filter
      action instead lengthens the text every time it is applied. */
  lemma ModifyQueryRepeated(query: Query, action: FixAction)
    ensures FilterClause(action) == "" ==>
      ModifyQuery(ModifyQuery(query, action), action) == ModifyQuery(query, action)
    ensures FilterClause(action) != "" ==>
      |ModifyQuery(ModifyQuery(query, action), action).queryText.value|
        > |ModifyQuery(query, action).queryText.value|
        > |TextOrEmpty(query.queryText)|
  {
    ModifyQueryAppendsClauses(query, action, action);
  }

  /** Including and excluding the same key and value give different texts. */
  lemma FilterAndFilterOutDiffer(query: Query, key: string, value: string)
    requires key != "" && value != ""
    ensures
      var opts := Some(map["key" := key, "value" := value]);
      ModifyQuery(query, FixAction("ADD_FILTER", opts)).queryText
        != ModifyQuery(query, FixAction("ADD_FILTER_OUT", opts)).queryText
  {
    var opts := Some(map["key" := key, "value" := value]);
    var base := TextOrEmpty(query.queryText);
    var inc := ModifyQuery(query, FixAction("ADD_FILTER", opts)).queryText.value;
    var exc := ModifyQuery(query, FixAction("ADD_FILTER_OUT", opts)).queryText.value;
    var at := |base| + 1 + |key|;
    assert inc == base + " " + key + "=" + value;
    assert exc == base + " " + key + "!=" + value;
    assert inc[at] == '=';
    assert exc[at] == '!';
  }

  // ---------------------------------------------------------------------
  // processLogsToDataFrames
  // ---------------------------------------------------------------------

  /** Row i of frame f holds record `log`: its four extracted properties in
      the first four columns and everything else in `attributes`. */
  ghost predicate RowHolds(f: Frame, i: int, log: Log)
    requires 0 <= i < |f.timestamp| && 0 <= i < |f.body| && 0 <= i < |f.severity|
    requires 0 <= i < |f.id| && 0 <= i < |f.attributes|
  {
    && f.timestamp[i] == log["timestamp"].n
    && f.body[i] == log["body"].s
    && f.severity[i] == log["severity"].s
    && f.id[i] == log["id"].s
    && f.attributes[i] == Rest(log)
  }

  /** `f` is the frame built for `target` from `logs`: one row per record,
      in the order given, and the target's metadata. */
  ghost predicate IsFrameOf(f: Frame, logs: seq<Log>, target: Query) {
    && |f.timestamp| == |logs| && |f.body| == |logs| && |f.severity| == |logs|
    && |f.id| == |logs| && |f.attributes| == |logs|
    && (forall i :: 0 <= i < |logs| ==> RowHolds(f, i, logs[i]))
    && f.refId == target.refId
    && f.meta == FrameMeta(LogLines, "logs", target.limit, [target.queryText])
  }

  method ProcessLogsToDataFrames(logs: seq<Log>, target: Query) returns (frame: Frame)
    ensures IsFrameOf(frame, logs, target)
  {
    var timeStampValues: seq<int> := [];
    var bodyValues: seq<string> := [];
    var severityValues: seq<string> := [];
    var idValues: seq<string> := [];
    var attributesValues: seq<map<string, Value>> := [];
    for k := 0 to |logs|
      invariant |timeStampValues| == k && |bodyValues| == k && |severityValues| == k
      invariant |idValues| == k && |attributesValues| == k
      invariant forall i :: 0 <= i < k ==>
        && timeStampValues[i] == logs[i]["timestamp"].n
        && bodyValues[i] == logs[i]["body"].s
        && severityValues[i] == logs[i]["severity"].s
        && idValues[i] == logs[i]["id"].s
        && attributesValues[i] == Rest(logs[i])
    {
      var log := logs[k];
      timeStampValues := timeStampValues + [log["timestamp"].n];
      bodyValues := bodyValues + [log["body"].s];
      severityValues := severityValues + [log["severity"].s];
      idValues := idValues + [log["id"].s];
      attributesValues := attributesValues + [Rest(log)];
    }
    frame := Frame(target.refId, timeStampValues, bodyValues, severityValues, idValues, attributesValues,
                   FrameMeta(LogLines, "logs", target.limit, [target.queryText]));
  }

  /** Puts row i of a frame back together as a record. */
  function RowAsLog(f: Frame, i: nat): map<string, Value>
    requires i < |f.timestamp| && i < |f.body| && i < |f.severity| && i < |f.id| && i < |f.attributes|
  {
    f.attributes[i]["timestamp" := Num(f.timestamp[i])]["body" := Str(f.body[i])]
      ["severity" := Str(f.severity[i])]["id" := Str(f.id[i])]
  }

  /** Framing loses nothing: each row of the frame reassembles into
      exactly the record it came from, and no extracted property is
      duplicated in `attributes`. */
  lemma FrameRowsRestoreLogs(f: Frame, logs: seq<Log>, target: Query, i: nat)
    requires IsFrameOf(f, logs, target)
    requires i < |logs|
    ensures RowAsLog(f, i) == logs[i]
    ensures f.attributes[i].Keys !! ExtractedKeys
  {
    var log := logs[i];
    assert RowHolds(f, i, log);
    var r := RowAsLog(f, i);
    assert r.Keys == log.Keys;
    forall key | key in log
      ensures r[key] == log[key]
    {
      if key == "timestamp" {
        assert log[key] == Num(log[key].n);
      } else if key == "body" || key == "severity" || key == "id" {
        assert log[key] == Str(log[key].s);
      }
    }
  }

  /** Columns keep the order of the input: framing a concatenation of two
      record lists gives the concatenated columns. */
  lemma FrameOfConcatenation(f: Frame, g: Frame, h: Frame, a: seq<Log>, b: seq<Log>, target: Query)
    requires IsFrameOf(f, a, target) && IsFrameOf(g, b, target) && IsFrameOf(h, a + b, target)
    ensures h.timestamp == f.timestamp + g.timestamp
    ensures h.body == f.body + g.body
    ensures h.severity == f.severity + g.severity
    ensures h.id == f.id + g.id
    ensures h.attributes == f.attributes + g.attributes
  {
    forall i | 0 <= i < |a| + |b|
      ensures h.timestamp[i] == (f.timestamp + g.timestamp)[i]
      ensures h.body[i] == (f.body + g.body)[i]
      ensures h.severity[i] == (f.severity + g.severity)[i]
      ensures h.id[i] == (f.id + g.id)[i]
      ensures h.attributes[i] == (f.attributes + g.attributes)[i]
    {
      assert RowHolds(h, i, (a + b)[i]);
      if i < |a| {
        assert RowHolds(f, i, a[i]);
      } else {
        assert RowHolds(g, i - |a|, b[i - |a|]);
      }
    }
    assert h.timestamp == f.timestamp + g.timestamp;
    assert h.body == f.body + g.body;
    assert h.severity == f.severity + g.severity;
    assert h.id == f.id + g.id;
    assert h.attributes == f.attributes + g.attributes;
  }

  // ---------------------------------------------------------------------
  // query: merging per-target results
  // ---------------------------------------------------------------------

  /** All frames of all results, results in order. */
  function Flatten(results: seq<Response>): seq<Frame> {
    if results == [] then []
    else Flatten(results[..|results| - 1]) + results[|results| - 1].data
  }

  /** When each result carries one frame, the merged list has one frame
      per result, frame i coming from result i. */
  lemma {:induction false} FlattenSingleFrames(results: seq<Response>)
    requires forall i :: 0 <= i < |results| ==> |results[i].data| == 1
    ensures |Flatten(results)| == |results|
    ensures forall i :: 0 <= i < |results| ==> Flatten(results)[i] == results[i].data[0]
  {
    if results != [] {
      var init := results[..|results| - 1];
      FlattenSingleFrames(init);
    }
  }

  /** The forkJoin branch of `query`: push every frame of every result,
      in order, into one Done response. */
  method MergeResults(results: seq<Response>) returns (response: Response)
    ensures response.state == Done
    ensures response.data == Flatten(results)
  {
    var data: seq<Frame> := [];
    for k := 0 to |results|
      invariant data == Flatten(results[..k])
    {
      var result := results[k];
      for j := 0 to |result.data|
        invariant data == Flatten(results[..k]) + result.data[..j]
      {
        data := data + [result.data[j]];
      }
      assert results[..k + 1][..k] == results[..k];
      assert result.data[..|result.data|] == result.data;
    }
    assert results[..|results|] == results;
    response := Response(data, Done);
  }

  // ---------------------------------------------------------------------
  // query: one-shot and streaming
  // ---------------------------------------------------------------------

  /** The fetch issued for `target` over `range`. */
  function FetchFor(fetch: Fetcher, target: Query, range: TimeRange): Fetched {
    fetch(target.limit, range.from, range.to, target.queryText)
  }

  /** A response holding exactly the frame built for `target` from `logs`. */
  ghost predicate IsSingleFrameResponse(r: Response, logs: seq<Log>, target: Query, state: LoadingState) {
    r.state == state && |r.data| == 1 && IsFrameOf(r.data[0], logs, target)
  }

  /** What the one-shot query promises: no targets, no emission; a failed
      fetch fails the query with the error of some failing target (which
      one depends on timing); otherwise one Done response with one frame
      per target, in target order, hidden targets included. */
  ghost predicate IsOneShotOutcome(out: Outcome, targets: seq<Query>, range: TimeRange, fetch: Fetcher) {
    if targets == [] then out == NoEmission
    else if exists i :: 0 <= i < |targets| && FetchFor(fetch, targets[i], range).FetchFailed? then
      out.Failed? &&
      exists i :: 0 <= i < |targets| && FetchFor(fetch, targets[i], range) == FetchFailed(out.error)
    else
      && out.Emitted?
      && out.response.state == Done
      && |out.response.data| == |targets|
      && forall i :: 0 <= i < |targets| ==>
           IsFrameOf(out.response.data[i], FetchFor(fetch, targets[i], range).logs, targets[i])
  }

  /** The non-streaming branch of `query`. */
  method QueryOnce(targets: seq<Query>, range: TimeRange, fetch: Fetcher) returns (out: Outcome)
    ensures IsOneShotOutcome(out, targets, range, fetch)
    ensures |targets| == 1 && out.Emitted? ==>
      IsSingleFrameResponse(out.response, FetchFor(fetch, targets[0], range).logs, targets[0], Done)
  {
    var responses: seq<Response> := [];
    for k := 0 to |targets|
      invariant |responses| == k
      invariant forall i :: 0 <= i < k ==> FetchFor(fetch, targets[i], range).Logs?
      invariant forall i :: 0 <= i < k ==>
        IsSingleFrameResponse(responses[i], FetchFor(fetch, targets[i], range).logs, targets[i], Done)
    {
      var fetched := FetchFor(fetch, targets[k], range);
      match fetched
      case FetchFailed(e) =>
        return Failed(e);
      case Logs(logs) =>
        var frame := ProcessLogsToDataFrames(logs, targets[k]);
        responses := responses + [Response([frame], Done)];
    }
    if |responses| == 1 {
      out := Emitted(responses[0]);
    } else if |responses| == 0 {
      // forkJoin over no observables completes without emitting
      out := NoEmission;
    } else {
      var merged := MergeResults(responses);
      FlattenSingleFrames(responses);
      out := Emitted(merged);
    }
  }

  /** Streaming advances the window by this many milliseconds per tick. */
  const StreamStepMs: int := 10000

  /** The window fetched on tick v: the requested range moved v steps later. */
  function TickWindow(range: TimeRange, v: nat): (w: TimeRange)
    ensures w.to - w.from == range.to - range.from
    ensures w.from - range.from == w.to - range.to == v * StreamStepMs
  {
    var addedTime := v * StreamStepMs;
    TimeRange(range.from + addedTime, range.to + addedTime)
  }

  /** What streaming tick v of `target` promises. */
  ghost predicate IsTickOutcome(out: Outcome, target: Query, range: TimeRange, v: nat, fetch: Fetcher) {
    match FetchFor(fetch, target, TickWindow(range, v))
    case FetchFailed(e) => out == Failed(e)
    case Logs(logs) => out.Emitted? && IsSingleFrameResponse(out.response, logs, target, Streaming)
  }

  /** One tick of the streaming branch of `query`: only the first target
      is used. */
  method StreamTick(targets: seq<Query>, range: TimeRange, v: nat, fetch: Fetcher) returns (out: Outcome)
    requires |targets| > 0
    ensures IsTickOutcome(out, targets[0], range, v, fetch)
  {
    var target := targets[0];
    var window := TickWindow(range, v);
    match FetchFor(fetch, target, window)
    case FetchFailed(e) =>
      out := Failed(e);
    case Logs(logs) =>
      var frame := ProcessLogsToDataFrames(logs, target);
      out := Emitted(Response([frame], Streaming));
  }

  /** `query`: in streaming mode, what tick `tick` emits; otherwise the
      one-shot outcome. */
  method RunQuery(request: Request, tick: nat, fetch: Fetcher) returns (out: Outcome)
    requires request.liveStreaming ==> |request.targets| > 0
    ensures request.liveStreaming ==> IsTickOutcome(out, request.targets[0], request.range, tick, fetch)
    ensures !request.liveStreaming ==> IsOneShotOutcome(out, request.targets, request.range, fetch)
    ensures !request.liveStreaming && |request.targets| == 1 && out.Emitted? ==>
      IsSingleFrameResponse(out.response, FetchFor(fetch, request.targets[0], request.range).logs,
                            request.targets[0], Done)
  {
    if request.liveStreaming {
      out := StreamTick(request.targets, request.range, tick, fetch);
    } else {
      out := QueryOnce(request.targets, request.range, fetch);
    }
  }

  /** Two one-shot outcomes for the same request agree except, when
      several fetches fail, on which error is reported. */
  lemma OneShotOutcomeDetermined(a: Outcome, b: Outcome, targets: seq<Query>, range: TimeRange, fetch: Fetcher)
    requires IsOneShotOutcome(a, targets, range, fetch) && IsOneShotOutcome(b, targets, range, fetch)
    ensures a.Failed? <==> b.Failed?
    ensures a.Emitted? <==> b.Emitted?
    ensures a.Emitted? ==> a.response == b.response
  {
    if a.Emitted? && b.Emitted? {
      var n := |targets|;
      forall i | 0 <= i < n
        ensures a.response.data[i] == b.response.data[i]
      {
        var logs := FetchFor(fetch, targets[i], range).logs;
        var fa, fb := a.response.data[i], b.response.data[i];
        assert IsFrameOf(fa, logs, targets[i]) && IsFrameOf(fb, logs, targets[i]);
        FrameDetermined(fa, fb, logs, targets[i]);
      }
      assert a.response.data == b.response.data;
    }
  }

  /** A frame is fully determined by its records and target. */
  lemma FrameDetermined(f: Frame, g: Frame, logs: seq<Log>, target: Query)
    requires IsFrameOf(f, logs, target) && IsFrameOf(g, logs, target)
    ensures f == g
  {
    forall i | 0 <= i < |logs|
      ensures f.timestamp[i] == g.timestamp[i] && f.body[i] == g.body[i] && f.severity[i] == g.severity[i]
      ensures f.id[i] == g.id[i] && f.attributes[i] == g.attributes[i]
    {
      assert RowHolds(f, i, logs[i]) && RowHolds(g, i, logs[i]);
    }
    assert f.timestamp == g.timestamp;
    assert f.body == g.body;
    assert f.severity == g.severity;
    assert f.id == g.id;
    assert f.attributes == g.attributes;
  }

  // ---------------------------------------------------------------------
  // Log context
  // ---------------------------------------------------------------------

  /** Six hours, the span of the context window. */
  const LookBackMs: int := 6 * 60 * 60 * 1000

  datatype Direction = Forward | Backward

  datatype ContextOptions = ContextOptions(direction: Option<Direction>, limit: Option<int>)

  /** The selected log row: its time and unique id. */
  datatype LogRow = LogRow(timeEpochMs: int, uid: string)

  predicate IsForward(options: Option<ContextOptions>) {
    options.Some? && options.value.direction == Some(Forward)
  }

  /** The context window: exactly LookBackMs wide, ending at the row when
      the direction is Forward and starting at it otherwise (including
      when no options or no direction are given). */
  function ContextTimeRange(row: LogRow, options: Option<ContextOptions>): (r: TimeRange)
    ensures r.to - r.from == LookBackMs
    ensures IsForward(options) ==> r.to == row.timeEpochMs
    ensures !IsForward(options) ==> r.from == row.timeEpochMs
  {
    var t := row.timeEpochMs;
    TimeRange(if IsForward(options) then t - LookBackMs else t,
              if IsForward(options) then t else t + LookBackMs)
  }

  const ContextMarker: string := " log-context + "

  /** `${text}` in a template literal: an undefined text renders as
      "undefined". */
  function TemplateText(text: Option<string>): string {
    match text
    case Some(s) => s
    case None => "undefined"
  }

  /** The context query: absent without an original query; otherwise the
      original with its text marked as a context query of the row. */
  function GetLogRowContextQuery(row: LogRow, options: Option<ContextOptions>, query: Option<Query>): (r: Option<Query>)
    ensures r.Some? <==> query.Some?
    ensures r.Some? ==> r.value == query.value.(queryText := r.value.queryText)
    ensures r.Some? ==> r.value.queryText == Some(TemplateText(query.value.queryText) + ContextMarker + row.uid)
  {
    match query
    case None => None
    case Some(q) => Some(q.(queryText := Some(TemplateText(q.queryText) + ContextMarker + row.uid)))
  }

  /** The original text (as rendered) is recovered from the context
      query's text by dropping the marker and the row id. */
  function StripContextMarker(text: string, uid: string): Option<string> {
    var n := |ContextMarker + uid|;
    if |text| >= n && text[|text| - n..] == ContextMarker + uid then Some(text[..|text| - n]) else None
  }

  lemma ContextQueryKeepsText(row: LogRow, options: Option<ContextOptions>, query: Query)
    ensures
      var cq := GetLogRowContextQuery(row, options, Some(query)).value;
      StripContextMarker(cq.queryText.value, row.uid) == Some(TemplateText(query.queryText))
  {
    var text := TemplateText(query.queryText) + ContextMarker + row.uid;
    var tail := ContextMarker + row.uid;
    assert text == TemplateText(query.queryText) + tail;
    assert text[|text| - |tail|..] == tail;
    assert text[..|text| - |tail|] == TemplateText(query.queryText);
  }

  /** The request the context view runs: at most the context query, over
      the context window, not streaming. */
  function LogRowContextRequest(row: LogRow, options: Option<ContextOptions>, query: Option<Query>): (req: Request)
    ensures !req.liveStreaming
    ensures req.range == ContextTimeRange(row, options)
    ensures query.None? ==> req.targets == []
    ensures query.Some? ==> req.targets == [GetLogRowContextQuery(row, options, query).value]
    ensures req.requestId == "context-" + (if query.Some? then query.value.refId else "undefined")
  {
    var contextQuery := GetLogRowContextQuery(row, options, query);
    Request(
      if contextQuery.Some? then [contextQuery.value] else [],
      ContextTimeRange(row, options),
      false,
      "context-" + (match query case Some(q) => q.refId case None => "undefined"))
  }

  /** The settled result of a context query: the response, the fixed
      error that replaces a failed fetch, or no element at all (the
      query completed without emitting). */
  datatype ContextOutcome =
    | Resolved(response: Response)
    | ContextError(message: string, status: int, statusText: string)
    | NoElements

  const ContextErrorMessage: string := "Error during context query. Please check JS console logs."

  method GetLogRowContext(row: LogRow, options: Option<ContextOptions>, query: Option<Query>, fetch: Fetcher)
    returns (out: ContextOutcome)
    ensures query.None? ==> out == NoElements
    ensures query.Some? ==>
      var cq := GetLogRowContextQuery(row, options, query).value;
      match FetchFor(fetch, cq, ContextTimeRange(row, options))
      case FetchFailed(e) => out == ContextError(ContextErrorMessage, e.status, e.statusText)
      case Logs(logs) => out.Resolved? && IsSingleFrameResponse(out.response, logs, cq, Done)
  {
    var request := LogRowContextRequest(row, options, query);
    var result := RunQuery(request, 0, fetch);
    match result
    case NoEmission =>
      out := NoElements;
    case Failed(e) =>
      out := ContextError(ContextErrorMessage, e.status, e.statusText);
    case Emitted(response) =>
      out := Resolved(response);
  }
}
