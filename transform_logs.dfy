/** The CloudWatch Logs transformer
    (lambda_functions/transform_cloudwatch_lambda.py): each decoded line is a
    CloudWatch Logs message for one log group; the RDS instance is the fifth
    `/`-separated field of the group's name, and when it carries this
    environment's prefix and its tags carry `Organization GUID`, every log
    event becomes one entry with those tags. */
module TransformLogs {
  import opened Wrappers
  import opened Json
  import opened Strings
  import Memo
  import opened Inventory
  import Environment
  import opened Firehose

  type ArnKey = (string, ClientId)

  /** What the warm process keeps between calls: the `lru_cache` of
      `get_tags_from_arn` and the requests sent to the RDS clients. */
  datatype LogState = LogState(arns: Memo.Lru<ArnKey, TagMap>, requests: seq<Request>)

  /** A result together with the process state after computing it. */
  datatype Lookup<T> = Lookup(value: T, state: LogState)

  /** The settings `lambda_handler` establishes before its loop. */
  datatype LogContext = LogContext(region: Option<string>, accountId: string, rdsPrefix: string, rds: Client)

  // ---------------------------------------------------------------------
  // Initialisation

  /** The `try` that opens `lambda_handler`: the strict prefix derivation,
      then a required, non-empty `ACCOUNT_ID`. `None` when either raises.
      It succeeds exactly for a known environment and a set `ACCOUNT_ID`,
      and then fixes the environment's prefix and the settings read. */
  function Setup(env: Option<string>, region: Option<string>, accountId: Option<string>, rds: Client): (c: Option<LogContext>)
    ensures c.Some? <==> env.Some? && Environment.Known(env.value) && accountId.Some? && accountId.value != ""
    ensures c.Some? ==>
              && Success(c.value.rdsPrefix) == Environment.RdsPrefix(env)
              && c.value.accountId == accountId.value
              && c.value.region == region && c.value.rds == rds
  {
    match Environment.RdsPrefix(env)
    case Failure(_) => None
    case Success(prefix) =>
      if accountId.None? || accountId.value == "" then None
      else Some(LogContext(region, accountId.value, prefix, rds))
  }

  // ---------------------------------------------------------------------
  // Tag lookups

  /** The body of `get_tags_from_arn` (without the cache): only a `:db:` ARN
      is looked up, and kept only when it carries the ownership marker; a
      caught error gives `{}`. */
  function ArnTags(arn: string, client: Client): TagMap
  {
    if Contains(arn, ":db:") then
      match client.tagging(ListTagsForResource, arn)
      case Success(tags) => if OwnershipKey in ToMap(tags) then ToMap(tags) else map[]
      case Failure(_) => map[]
    else map[]
  }

  function ArnRequests(arn: string, client: Client): seq<Request>
  {
    if Contains(arn, ":db:") then [Request(client.id, ListTagsForResource, arn)] else []
  }

  /** The ownership gate: whatever the client answers, the tags are empty or
      carry `Organization GUID`, and they are the instance's tag set when
      they are not empty. */
  lemma ArnTagsOwned(arn: string, client: Client)
    ensures var tags := ArnTags(arn, client);
      && (tags == map[] || OwnershipKey in tags)
      && (tags != map[] ==> client.tagging(ListTagsForResource, arn).Success?
                            && tags == ToMap(client.tagging(ListTagsForResource, arn).value))
  {
  }

  /** `get_tags_from_arn` behind `lru_cache`, keyed on `(arn, client)`. */
  function MemoArnTags(st: LogState, arn: string, client: Client): Lookup<TagMap>
  {
    var key := (arn, client.id);
    if key in st.arns.entries then
      Lookup(st.arns.entries[key], st.(arns := Memo.Touch(st.arns, key)))
    else
      var tags := ArnTags(arn, client);
      Lookup(tags, LogState(Memo.Store(st.arns, key, tags), st.requests + ArnRequests(arn, client)))
  }

  /** The instance ARN `get_resource_tags_from_log` builds. */
  function LogArn(ctx: LogContext, name: string): string {
    "arn:aws-us-gov:rds:" + Show(ctx.region) + ":" + ctx.accountId + ":db:" + name
  }

  /** `get_resource_tags_from_log`. */
  function ResourceTagsFromLog(name: string, ctx: LogContext, st: LogState): Lookup<TagMap>
  {
    if StartsWith(name, ctx.rdsPrefix) then MemoArnTags(st, LogArn(ctx, name), ctx.rds)
    else Lookup(map[], st)
  }

  /** A name without the prefix is not looked up; a name with it is looked
      up under its `:db:` ARN, by one request on a cache miss. */
  lemma ResourceTagsGate(name: string, ctx: LogContext, st: LogState)
    ensures !StartsWith(name, ctx.rdsPrefix) ==> ResourceTagsFromLog(name, ctx, st) == Lookup(map[], st)
    ensures StartsWith(name, ctx.rdsPrefix) && (LogArn(ctx, name), ctx.rds.id) !in st.arns.entries ==>
              ResourceTagsFromLog(name, ctx, st).state.requests
                == st.requests + [Request(ctx.rds.id, ListTagsForResource, LogArn(ctx, name))]
  {
    ContainsInfix("arn:aws-us-gov:rds:" + Show(ctx.region) + ":" + ctx.accountId, ":db:", name);
  }

  /** A second identical lookup sends nothing and answers the same, also
      when the first ended in a caught error. */
  lemma MemoArnTagsRepeat(st: LogState, arn: string, client: Client)
    requires Memo.Valid(st.arns)
    ensures var l1 := MemoArnTags(st, arn, client);
            var l2 := MemoArnTags(l1.state, arn, client);
      && Memo.Valid(l1.state.arns)
      && l2.value == l1.value
      && l2.state.requests == l1.state.requests
  {
    var key := (arn, client.id);
    if key in st.arns.entries {
      Memo.TouchKeeps(st.arns, key);
    } else {
      Memo.StoreKeeps(st.arns, key, ArnTags(arn, client));
    }
  }

  // ---------------------------------------------------------------------
  // One CloudWatch Logs message

  /** `logs["logGroup"].split("/")[4]`; `None` when `logs` is not an
      object, the group is missing or not a string, or it has fewer than
      five fields. */
  function ResourceName(logs: Json): Option<string> {
    if logs.JObj? && "logGroup" in logs.fields && logs.fields["logGroup"].JStr? then
      var fields := Split(logs.fields["logGroup"].s, '/');
      if |fields| >= 5 then Some(fields[4]) else None
    else None
  }

  /** The keys of every entry `process_logs` builds. */
  const EntryKeys: set<string> := {"logGroup", "logStream", "message", "timestamp", "Tags"}

  /** The entry for one log event; `None` when a field access raises. */
  function EventEntry(logs: Object, event: Json, tags: TagMap): Option<Object> {
    if "logGroup" in logs && "logStream" in logs &&
       event.JObj? && "message" in event.fields && "timestamp" in event.fields then
      Some(map["logGroup" := logs["logGroup"], "logStream" := logs["logStream"],
               "message" := event.fields["message"], "timestamp" := event.fields["timestamp"],
               "Tags" := JObj(tags)])
    else None
  }

  /** The loop over the elements of a `logEvents` list; an access that
      raises discards everything. */
  function EventEntries(logs: Object, events: seq<Json>, tags: TagMap): Option<seq<Object>>
    decreases |events|
  {
    if events == [] then Some([])
    else
      match EventEntries(logs, events[..|events| - 1], tags)
      case None => None
      case Some(entries) =>
        match EventEntry(logs, events[|events| - 1], tags)
        case None => None
        case Some(e) => Some(entries + [e])
  }

  /** Iterating `logs["logEvents"]`: a list by its elements; an empty
      string or object yields nothing; every other value (a non-empty
      string or object, whose elements are strings, or a scalar) raises. */
  function LogEvents(logs: Object, tags: TagMap): Option<seq<Object>> {
    if "logEvents" !in logs then None
    else match logs["logEvents"]
      case JArr(events) => EventEntries(logs, events, tags)
      case JStr(s) => if s == "" then Some([]) else None
      case JObj(fields) => if fields == map[] then Some([]) else None
      case _ => None
  }

  /** `process_logs`: `None` when the resource cannot be named, when it has
      no tags, or when an access raises; otherwise one entry per event. */
  function ProcessedLogs(logs: Json, ctx: LogContext, st: LogState): Lookup<Option<seq<Object>>> {
    match ResourceName(logs)
    case None => Lookup(None, st)
    case Some(name) =>
      var l := ResourceTagsFromLog(name, ctx, st);
      if |l.value| == 0 then Lookup(None, l.state)
      else Lookup(LogEvents(logs.fields, l.value), l.state)
  }

  /** The events loop keeps one entry per event, in order, each with
      exactly the five keys and the tags; it fails exactly when one of the
      events (or the message around them) lacks a field. */
  lemma {:induction false} EventEntriesShape(logs: Object, events: seq<Json>, tags: TagMap)
    ensures var r := EventEntries(logs, events, tags);
      && (r.Some? <==> forall i :: 0 <= i < |events| ==> EventEntry(logs, events[i], tags).Some?)
      && (r.Some? ==>
            && |r.value| == |events|
            && forall i :: 0 <= i < |events| ==>
                 && Some(r.value[i]) == EventEntry(logs, events[i], tags)
                 && r.value[i].Keys == EntryKeys
                 && r.value[i]["message"] == events[i].fields["message"]
                 && r.value[i]["timestamp"] == events[i].fields["timestamp"]
                 && r.value[i]["Tags"] == JObj(tags))
    decreases |events|
  {
    if events != [] {
      var init := events[..|events| - 1];
      EventEntriesShape(logs, init, tags);
      assert forall i :: 0 <= i < |init| ==> init[i] == events[i];
    }
  }

  /** Once an event lacks a field, the whole loop fails. */
  lemma {:induction false} EventsFailureSticks(logs: Object, events: seq<Json>, k: nat, tags: TagMap)
    requires k <= |events| && EventEntries(logs, events[..k], tags).None?
    ensures EventEntries(logs, events, tags).None?
    decreases |events|
  {
    if k < |events| {
      assert events[..|events| - 1][..k] == events[..k];
      EventsFailureSticks(logs, events[..|events| - 1], k, tags);
    } else {
      assert events[..k] == events;
    }
  }

  /** `process_logs` answers a list only for a nameable resource with tags,
      and every entry of it carries exactly the five keys, among them
      those tags; nothing else of the message (`owner`,
      `subscriptionFilters`, `messageType`) is kept. */
  lemma ProcessedLogsShape(logs: Json, ctx: LogContext, st: LogState)
    ensures var r := ProcessedLogs(logs, ctx, st);
      && (ResourceName(logs).None? ==> r == Lookup(None, st))
      && (r.value.Some? ==>
            && ResourceName(logs).Some?
            && var tags := ResourceTagsFromLog(ResourceName(logs).value, ctx, st).value;
               && |tags| > 0
               && forall e :: e in r.value.value ==> e.Keys == EntryKeys && e["Tags"] == JObj(tags))
  {
    if ResourceName(logs).Some? {
      var l := ResourceTagsFromLog(ResourceName(logs).value, ctx, st);
      if |l.value| > 0 && "logEvents" in logs.fields && logs.fields["logEvents"].JArr? {
        EventEntriesShape(logs.fields, logs.fields["logEvents"].items, l.value);
        var r := EventEntries(logs.fields, logs.fields["logEvents"].items, l.value);
        if r.Some? {
          forall e | e in r.value ensures e.Keys == EntryKeys && e["Tags"] == JObj(l.value) {
            var i :| 0 <= i < |r.value| && r.value[i] == e;
          }
        }
      }
    }
  }

  /** A log group shorter than five fields is no error: `process_logs`
      answers `None`, with no lookup. */
  lemma ShortLogGroup(logs: Object, ctx: LogContext, st: LogState)
    requires "logGroup" in logs && logs["logGroup"].JStr?
    requires |Split(logs["logGroup"].s, '/')| < 5
    ensures ProcessedLogs(JObj(logs), ctx, st) == Lookup(None, st)
  {
  }

  /** One decoded line inside `lambda_handler`'s loop: the entries of
      `process_logs`, none when it answered `None` or `[]`. The line never
      raises: `process_logs` catches everything. */
  function LogLine(v: Json, ctx: LogContext, st: LogState): Step<LogState> {
    var r := ProcessedLogs(v, ctx, st);
    Step(if r.value.Some? then r.value.value else [], r.state, false)
  }

  function LogStep(ctx: LogContext): LineStep<LogState> {
    (v: Json, st: LogState) => LogLine(v, ctx, st)
  }

  /** `lambda_handler`: no records at all when initialisation fails, the
      Firehose loop otherwise. */
  function Handler(records: Option<seq<InputRecord>>, decode: Decoder, env: Option<string>,
                   region: Option<string>, accountId: Option<string>, rds: Client, st: LogState): Batch<LogState>
  {
    match Setup(env, region, accountId, rds)
    case None => Batch([], st, true)
    case Some(ctx) => Transform(records, decode, LogStep(ctx), st)
  }

  /** A failed initialisation returns `{"records": []}` and touches neither
      the cache nor any client. */
  lemma InitFailureReturnsNothing(records: Option<seq<InputRecord>>, decode: Decoder, env: Option<string>,
                                  region: Option<string>, accountId: Option<string>, rds: Client, st: LogState)
    requires !(env.Some? && Environment.Known(env.value)) || accountId.None? || accountId == Some("")
    ensures Handler(records, decode, env, region, accountId, rds, st) == Batch([], st, true)
  {
  }

  /** The handler's records line up with its input: output `i` is what
      record `i` yields after the records before it, and only an exception
      leaves records without an output. */
  lemma HandlerAligned(records: seq<InputRecord>, decode: Decoder, ctx: LogContext, st: LogState)
    ensures var b := Transform(Some(records), decode, LogStep(ctx), st);
      && |b.outputs| <= |records|
      && (!b.raised <==> |b.outputs| == |records|)
      && forall i :: 0 <= i < |b.outputs| ==>
           ProcessRecord(records[i], decode, LogStep(ctx), StateBefore(records, i, decode, LogStep(ctx), st)).output
             == Some(b.outputs[i])
  {
    BatchAligned(records, decode, LogStep(ctx), st);
  }

  /** An entry of an `Ok` record: exactly the five keys, a log group whose
      fifth `/`-field names an instance with the environment's prefix, and
      the tags of an instance that carries `Organization GUID`. */
  predicate LogEntry(e: Object, prefix: string) {
    && e.Keys == EntryKeys
    && e["logGroup"].JStr?
    && |Split(e["logGroup"].s, '/')| >= 5
    && StartsWith(Split(e["logGroup"].s, '/')[4], prefix)
    && e["Tags"].JObj? && OwnershipKey in e["Tags"].fields
  }

  // ---------------------------------------------------------------------
  // The handler without its cache

  function ArnResults(client: Client): ArnKey -> TagMap {
    (k: ArnKey) => ArnTags(k.0, client)
  }

  function ArnKeysOf(client: Client): ArnKey -> bool {
    (k: ArnKey) => k.1 == client.id
  }

  /** Every cached result fetched with the context's client is what that
      client answers now. */
  ghost predicate Consistent(st: LogState, ctx: LogContext) {
    Memo.Valid(st.arns) && Memo.Agrees(st.arns, ArnResults(ctx.rds), ArnKeysOf(ctx.rds))
  }

  ghost function ConsistentUnder(ctx: LogContext): LogState -> bool {
    (st: LogState) => Consistent(st, ctx)
  }

  /** `lambda_handler` builds a new client on every invocation, so the
      entries earlier invocations left are never this client's. */
  lemma FreshClientConsistent(st: LogState, ctx: LogContext)
    requires Memo.Valid(st.arns)
    requires forall k :: k in st.arns.entries ==> k.1 != ctx.rds.id
    ensures Consistent(st, ctx)
  {
  }

  /** One line with the lookup performed afresh. */
  function PlainLogLine(v: Json, ctx: LogContext): Step<()> {
    match ResourceName(v)
    case None => Step([], (), false)
    case Some(name) =>
      var tags := if StartsWith(name, ctx.rdsPrefix) then ArnTags(LogArn(ctx, name), ctx.rds) else map[];
      if |tags| == 0 then Step([], (), false)
      else
        var r := LogEvents(v.fields, tags);
        Step(if r.Some? then r.value else [], (), false)
  }

  function PlainLogStep(ctx: LogContext): LineStep<()> {
    (v: Json, u: ()) => PlainLogLine(v, ctx)
  }

  /** The cached lookup answers what the client answers, and keeps the
      cache consistent. */
  lemma {:induction false} MemoArnTagsTransparent(st: LogState, arn: string, ctx: LogContext)
    requires Consistent(st, ctx)
    ensures var l := MemoArnTags(st, arn, ctx.rds);
      l.value == ArnTags(arn, ctx.rds) && Consistent(l.state, ctx)
  {
    var key := (arn, ctx.rds.id);
    if key in st.arns.entries {
      Memo.TouchKeeps(st.arns, key);
      Memo.TouchAgrees(st.arns, key, ArnResults(ctx.rds), ArnKeysOf(ctx.rds));
    } else {
      var tags := ArnTags(arn, ctx.rds);
      Memo.StoreKeeps(st.arns, key, tags);
      Memo.StoreAgrees(st.arns, key, tags, ArnResults(ctx.rds), ArnKeysOf(ctx.rds));
    }
  }

  lemma LogStepSimulates(ctx: LogContext)
    ensures Simulates(LogStep(ctx), ConsistentUnder(ctx), PlainLogStep(ctx))
  {
    forall v, st | ConsistentUnder(ctx)(st)
      ensures && ConsistentUnder(ctx)(LogStep(ctx)(v, st).state)
              && LogStep(ctx)(v, st).entries == PlainLogStep(ctx)(v, ()).entries
              && LogStep(ctx)(v, st).raised == PlainLogStep(ctx)(v, ()).raised
    {
      var name := ResourceName(v);
      if name.Some? && StartsWith(name.value, ctx.rdsPrefix) {
        MemoArnTagsTransparent(st, LogArn(ctx, name.value), ctx);
      }
    }
  }

  /** Memoisation is transparent: on a consistent cache the handler returns
      exactly the records the handler without a cache returns, and the
      cache stays consistent. */
  lemma CacheIsTransparent(records: Option<seq<InputRecord>>, decode: Decoder, ctx: LogContext, st: LogState)
    requires Consistent(st, ctx)
    ensures var b := Transform(records, decode, LogStep(ctx), st);
      && b.outputs == Transform(records, decode, PlainLogStep(ctx), ()).outputs
      && Consistent(b.state, ctx)
  {
    if records.Some? {
      LogStepSimulates(ctx);
      BatchSimulate(records.value, decode, LogStep(ctx), ConsistentUnder(ctx), PlainLogStep(ctx), st);
    }
  }

  lemma PlainLogLineEntries(v: Json, ctx: LogContext)
    ensures forall e :: e in PlainLogLine(v, ctx).entries ==> LogEntry(e, ctx.rdsPrefix)
  {
    var name := ResourceName(v);
    if name.Some? {
      var tags := if StartsWith(name.value, ctx.rdsPrefix) then ArnTags(LogArn(ctx, name.value), ctx.rds) else map[];
      if |tags| > 0 {
        ArnTagsOwned(LogArn(ctx, name.value), ctx.rds);
        var logs := v.fields;
        if "logEvents" in logs && logs["logEvents"].JArr? {
          EventEntriesShape(logs, logs["logEvents"].items, tags);
          var r := EventEntries(logs, logs["logEvents"].items, tags);
          if r.Some? {
            forall e | e in r.value ensures LogEntry(e, ctx.rdsPrefix) {
              var i :| 0 <= i < |r.value| && r.value[i] == e;
            }
          }
        }
      }
    }
  }

  /** On a consistent cache every entry the handler emits has exactly the
      five keys and the tags of an instance that carries `Organization
      GUID`. */
  lemma HandlerEmitsOwnedEntries(records: Option<seq<InputRecord>>, decode: Decoder, ctx: LogContext, st: LogState)
    requires Consistent(st, ctx)
    ensures EntriesSatisfy(Transform(records, decode, LogStep(ctx), st).outputs, (e: Object) => LogEntry(e, ctx.rdsPrefix))
  {
    CacheIsTransparent(records, decode, ctx, st);
    forall v, u: () ensures !PlainLogStep(ctx)(v, u).raised ==>
        forall e :: e in PlainLogStep(ctx)(v, u).entries ==> LogEntry(e, ctx.rdsPrefix)
    {
      PlainLogLineEntries(v, ctx);
    }
    if records.Some? {
      BatchEnsures(records.value, decode, PlainLogStep(ctx), (), (e: Object) => LogEntry(e, ctx.rdsPrefix));
    }
  }

  /** The `for event in logs["logEvents"]` loop of `process_logs`, building
      `return_logs` event by event; an event without a field ends it with
      `None`. */
  method CollectEntries(fields: Object, events: seq<Json>, tags: TagMap) returns (result: Option<seq<Object>>)
    ensures result == EventEntries(fields, events, tags)
  {
    var returnLogs: seq<Object> := [];
    var i := 0;
    while i < |events|
      invariant 0 <= i <= |events|
      invariant EventEntries(fields, events[..i], tags) == Some(returnLogs)
    {
      assert events[..i + 1][..i] == events[..i];
      var entry := EventEntry(fields, events[i], tags);
      if entry.None? {
        EventsFailureSticks(fields, events, i + 1, tags);
        return None;
      }
      returnLogs := returnLogs + [entry.value];
      i := i + 1;
    }
    assert events[..i] == events;
    result := Some(returnLogs);
  }

  // ---------------------------------------------------------------------
  // The warm Lambda process

  /** The module-level state of the deployed function: the `lru_cache` of
      `get_tags_from_arn` survives from one invocation to the next. */
  class LogTransformer {
    var arnCache: Memo.Lru<ArnKey, TagMap>
    var requests: seq<Request>

    function State(): LogState
      reads this
    {
      LogState(arnCache, requests)
    }

    ghost predicate Valid()
      reads this
    {
      Memo.Valid(arnCache)
    }

    /** A cold start: an empty cache, no requests sent. */
    constructor ()
      ensures Valid()
      ensures State() == LogState(Memo.Empty(), [])
    {
      arnCache := Memo.Empty();
      requests := [];
    }

    /** `get_tags_from_arn(arn, client)` through its cache. */
    method GetTagsFromArn(arn: string, client: Client) returns (tags: TagMap)
      requires Valid()
      modifies this
      ensures Valid()
      ensures Lookup(tags, State()) == MemoArnTags(old(State()), arn, client)
    {
      var key := (arn, client.id);
      if key in arnCache.entries {
        tags := arnCache.entries[key];
        Memo.TouchKeeps(arnCache, key);
        arnCache := Memo.Touch(arnCache, key);
      } else {
        tags := ArnTags(arn, client);
        requests := requests + ArnRequests(arn, client);
        Memo.StoreKeeps(arnCache, key, tags);
        arnCache := Memo.Store(arnCache, key, tags);
      }
    }

    /** `get_resource_tags_from_log`. */
    method GetResourceTagsFromLog(name: string, ctx: LogContext) returns (tags: TagMap)
      requires Valid()
      modifies this
      ensures Valid()
      ensures Lookup(tags, State()) == ResourceTagsFromLog(name, ctx, old(State()))
    {
      tags := map[];
      if StartsWith(name, ctx.rdsPrefix) {
        tags := GetTagsFromArn(LogArn(ctx, name), ctx.rds);
      }
    }

    /** `process_logs`, building `return_logs` event by event. */
    method ProcessLogs(logs: Json, ctx: LogContext) returns (result: Option<seq<Object>>)
      requires Valid()
      modifies this
      ensures Valid()
      ensures Lookup(result, State()) == ProcessedLogs(logs, ctx, old(State()))
    {
      var name := ResourceName(logs);
      if name.None? {
        return None;
      }
      var tags := GetResourceTagsFromLog(name.value, ctx);
      if |tags| == 0 {
        return None;
      }
      var fields := logs.fields;
      if "logEvents" !in fields {
        return None;
      }
      match fields["logEvents"]
      case JArr(events) =>
        result := CollectEntries(fields, events, tags);
      case JStr(text) =>
        result := if text == "" then Some([]) else None;
      case JObj(entries) =>
        result := if entries == map[] then Some([]) else None;
      case _ =>
        result := None;
    }

    /** The body of the inner loop for one decoded line. */
    method HandleLine(v: Json, ctx: LogContext) returns (entries: seq<Object>)
      requires Valid()
      modifies this
      ensures Valid()
      ensures LogLine(v, ctx, old(State())) == Step(entries, State(), false)
    {
      var results := ProcessLogs(v, ctx);
      entries := [];
      if results.Some? {
        entries := results.value;
      }
    }

    /** The inner loop over one record's lines. */
    method HandleLines(lines: seq<Option<Json>>, ctx: LogContext) returns (processed: seq<Object>, raised: bool)
      requires Valid()
      modifies this
      ensures Valid()
      ensures ProcessLines(lines, LogStep(ctx), old(State())) == Lines(processed, State(), raised)
    {
      ghost var s0 := State();
      processed := [];
      raised := false;
      var j := 0;
      while j < |lines| && !raised
        invariant 0 <= j <= |lines| && Valid()
        invariant ProcessLines(lines[..j], LogStep(ctx), s0) == Lines(processed, State(), raised)
      {
        assert lines[..j + 1][..j] == lines[..j];
        if lines[j].None? {
          raised := true;
        } else {
          var entries := HandleLine(lines[j].value, ctx);
          processed := processed + entries;
        }
        j := j + 1;
      }
      if raised {
        LinesRaisedSticks(lines, j, LogStep(ctx), s0);
      } else {
        assert lines[..j] == lines;
      }
    }

    /** One iteration of the outer loop; `None` when it raised. */
    method HandleRecord(record: InputRecord, decode: Decoder, ctx: LogContext) returns (output: Option<OutputRecord>)
      requires Valid()
      modifies this
      ensures Valid()
      ensures ProcessRecord(record, decode, LogStep(ctx), old(State())) == Handled(output, State())
    {
      output := None;
      if record.data.Some? && decode(record.data.value).Some? {
        var processed, raised := HandleLines(decode(record.data.value).value, ctx);
        if !raised && record.recordId.Some? {
          if processed != [] {
            output := Some(OutputRecord(record.recordId.value, Ok(processed)));
          } else {
            output := Some(OutputRecord(record.recordId.value, Dropped(record.data.value)));
          }
        }
      }
    }

    /** `lambda_handler`: the records as it returns them; the process keeps
        its cache for the next invocation. */
    method LambdaHandler(records: Option<seq<InputRecord>>, decode: Decoder, env: Option<string>,
                         region: Option<string>, accountId: Option<string>, rds: Client)
      returns (outputs: seq<OutputRecord>)
      requires Valid()
      modifies this
      ensures Valid()
      ensures var b := Handler(records, decode, env, region, accountId, rds, old(State()));
              outputs == b.outputs && State() == b.state
    {
      outputs := [];
      var ctx := Setup(env, region, accountId, rds);
      if ctx.None? || records.None? {
        return;
      }
      var rs := records.value;
      ghost var s0 := State();
      var i := 0;
      var raised := false;
      while i < |rs| && !raised
        invariant 0 <= i <= |rs| && Valid()
        invariant ProcessBatch(rs[..i], decode, LogStep(ctx.value), s0) == Batch(outputs, State(), raised)
      {
        assert rs[..i + 1][..i] == rs[..i];
        var output := HandleRecord(rs[i], decode, ctx.value);
        if output.None? {
          raised := true;
        } else {
          outputs := outputs + [output.value];
        }
        i := i + 1;
      }
      if raised {
        BatchRaisedSticks(rs, i, decode, LogStep(ctx.value), s0);
      } else {
        assert rs[..i] == rs;
      }
    }
  }
}
