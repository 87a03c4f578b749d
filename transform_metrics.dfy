/** The metric-stream transformer (lambda_functions/transform_lambda.py):
    each metric line names an S3 bucket, an OpenSearch domain or an RDS
    instance through one of its dimensions; when that name carries this
    environment's prefix, the resource's tags are looked up (memoised per
    warm process) and attached, and the stream's bookkeeping keys are
    removed. */
module TransformMetrics {
  import opened Wrappers
  import opened Json
  import opened Strings
  import Memo
  import opened Inventory
  import Environment
  import opened Firehose

  /** `default_keys_to_remove`. */
  const DefaultKeysToRemove: set<string> := {"metric_stream_name", "account_id", "region"}

  /** `EXPECTED_NAMESPACES`. */
  const ExpectedNamespaces: seq<Json> := [JStr("AWS/S3"), JStr("AWS/ES"), JStr("AWS/RDS")]

  /** The name prefixes of this environment's RDS instances, S3 buckets and
      OpenSearch domains. */
  datatype Prefixes = Prefixes(rds: string, s3: string, domain: string)

  /** `make_prefixes()`. The check for a missing environment builds a
      `RuntimeError` without raising it, so every setting yields prefixes:
      the known environments their own, anything else the bare bases. On
      the known environments the RDS prefix is the one the strict derivation
      of the other handlers gives. */
  function MakePrefixes(env: Option<string>): (p: Prefixes)
    ensures env == Some("development") ==>
              p == Prefixes("cg-aws-broker-dev", "development-cg-", "cg-broker-dev-")
    ensures env == Some("staging") ==>
              p == Prefixes("cg-aws-broker-stage", "staging-cg-", "cg-broker-stg-")
    ensures env == Some("production") ==>
              p == Prefixes("cg-aws-broker-prod", "cg-", "cg-broker-prd-")
    ensures !(env.Some? && Environment.Known(env.value)) ==>
              p == Prefixes("cg-aws-broker-", "cg-", "cg-broker-")
    ensures env.Some? && Environment.Known(env.value) ==>
              Environment.RdsPrefix(env) == Success(p.rds)
  {
    var e := if env.Some? then env.value else "";
    var s3 := if env.Some? && (e == "development" || e == "staging") then e + "-cg-" else "cg-";
    var domain :=
      if e == "production" then "cg-broker-prd-"
      else if e == "staging" then "cg-broker-stg-"
      else if e == "development" then "cg-broker-dev-"
      else "cg-broker-";
    var rds :=
      if e == "production" then "cg-aws-broker-prod"
      else if e == "staging" then "cg-aws-broker-stage"
      else if e == "development" then "cg-aws-broker-dev"
      else "cg-aws-broker-";
    Prefixes(rds, s3, domain)
  }

  /** Prefix isolation: for each kind of resource, no name carries the
      prefixes of two different environments, so no resource passes the
      gates of two environments. */
  lemma PrefixIsolation(e1: string, e2: string, name: string)
    requires Environment.Known(e1) && Environment.Known(e2) && e1 != e2
    ensures !(StartsWith(name, MakePrefixes(Some(e1)).rds) && StartsWith(name, MakePrefixes(Some(e2)).rds))
    ensures !(StartsWith(name, MakePrefixes(Some(e1)).s3) && StartsWith(name, MakePrefixes(Some(e2)).s3))
    ensures !(StartsWith(name, MakePrefixes(Some(e1)).domain) && StartsWith(name, MakePrefixes(Some(e2)).domain))
  {
    var p1, p2 := MakePrefixes(Some(e1)), MakePrefixes(Some(e2));
    Exclusive(name, p1.rds, p2.rds, 14);
    Exclusive(name, p1.s3, p2.s3, 0);
    Exclusive(name, p1.domain, p2.domain, 10);
  }

  /** With `ENVIRONMENT` unset or unknown the gates are the bare bases, and
      every name that passes some environment's gate passes them too. */
  lemma UnconfiguredGatesAdmitEveryEnvironment(env: Option<string>, e: string, name: string)
    requires !(env.Some? && Environment.Known(env.value)) && Environment.Known(e)
    ensures StartsWith(name, MakePrefixes(Some(e)).rds) ==> StartsWith(name, MakePrefixes(env).rds)
    ensures StartsWith(name, MakePrefixes(Some(e)).domain) ==> StartsWith(name, MakePrefixes(env).domain)
    ensures e == "production" && StartsWith(name, MakePrefixes(Some(e)).s3) ==>
              StartsWith(name, MakePrefixes(env).s3)
  {
    var known, bare := MakePrefixes(Some(e)), MakePrefixes(env);
    if StartsWith(name, known.rds) {
      assert StartsWith(known.rds, bare.rds);
      StartsWithTransitive(name, known.rds, bare.rds);
    }
    if StartsWith(name, known.domain) {
      assert StartsWith(known.domain, bare.domain);
      StartsWithTransitive(name, known.domain, bare.domain);
    }
  }

  // ---------------------------------------------------------------------
  // Tag lookups and their memoisation

  type ArnKey = (string, ClientId)
  type NameKey = (string, string, ClientId)
  type SizeKey = (ClientId, string)

  /** What the warm process keeps between calls: the three `lru_cache`s and
      the requests it has sent to the inventory clients. */
  datatype ProcessState = ProcessState(
    arns: Memo.Lru<ArnKey, TagMap>,
    names: Memo.Lru<NameKey, TagMap>,
    sizes: Memo.Lru<SizeKey, Json>,
    requests: seq<Request>)

  ghost predicate CachesValid(st: ProcessState) {
    Memo.Valid(st.arns) && Memo.Valid(st.names) && Memo.Valid(st.sizes)
  }

  /** A result together with the process state after computing it. */
  datatype Lookup<T> = Lookup(value: T, state: ProcessState)

  /** The body of `get_tags_from_arn` (without the cache): a `:domain/`
      ARN is listed with `list_tags`, a `:db:` ARN with
      `list_tags_for_resource` and kept only when it has the ownership
      marker; a caught error leaves what the earlier branch produced. */
  function ArnTags(arn: string, client: Client): TagMap
  {
    var listed :=
      if Contains(arn, ":domain/") then
        match client.tagging(ListTags, arn)
        case Success(tags) => ToMap(tags)
        case Failure(_) => map[]
      else map[];
    if Contains(arn, ":db:") then
      match client.tagging(ListTagsForResource, arn)
      case Success(tags) => if OwnershipKey in ToMap(tags) then ToMap(tags) else map[]
      case Failure(_) => listed
    else listed
  }

  /** The requests the body of `get_tags_from_arn` sends. */
  function ArnRequests(arn: string, client: Client): seq<Request>
  {
    (if Contains(arn, ":domain/") then [Request(client.id, ListTags, arn)] else [])
    + (if Contains(arn, ":db:") then [Request(client.id, ListTagsForResource, arn)] else [])
  }

  /** The body of `get_tags_from_name`: `None` when an exception other than
      `NoSuchTagSet` escapes it. */
  function BucketTags(name: string, kind: string, client: Client): Option<TagMap>
  {
    if kind != "S3" then Some(map[])
    else match client.tagging(GetBucketTagging, name)
      case Success(tags) => Some(ToMap(tags))
      case Failure(NoSuchTagSet) => Some(map[])
      case Failure(OtherError) => None
  }

  function BucketRequests(name: string, kind: string, client: Client): seq<Request>
  {
    if kind == "S3" then [Request(client.id, GetBucketTagging, name)] else []
  }

  /** The body of `get_rds_description`: the allocated storage, or `None`
      (JSON `null`) after a caught error. */
  function AllocatedStorage(client: Client, db: string): Json
  {
    match client.storage(db)
    case Success(size) => size
    case Failure(_) => JNull
  }

  /** `get_tags_from_arn` behind `lru_cache`, keyed on `(arn, client)`. */
  function MemoArnTags(st: ProcessState, arn: string, client: Client): Lookup<TagMap>
  {
    var key := (arn, client.id);
    if key in st.arns.entries then
      Lookup(st.arns.entries[key], st.(arns := Memo.Touch(st.arns, key)))
    else
      var tags := ArnTags(arn, client);
      Lookup(tags, st.(arns := Memo.Store(st.arns, key, tags),
                       requests := st.requests + ArnRequests(arn, client)))
  }

  /** `get_tags_from_name` behind `lru_cache`, keyed on `(name, type,
      client)`; an escaping exception stores nothing. */
  function MemoBucketTags(st: ProcessState, name: string, kind: string, client: Client): Lookup<Option<TagMap>>
  {
    var key := (name, kind, client.id);
    if key in st.names.entries then
      Lookup(Some(st.names.entries[key]), st.(names := Memo.Touch(st.names, key)))
    else
      var tags := BucketTags(name, kind, client);
      var st' := st.(requests := st.requests + BucketRequests(name, kind, client));
      match tags
      case None => Lookup(None, st')
      case Some(t) => Lookup(tags, st'.(names := Memo.Store(st.names, key, t)))
  }

  /** `get_rds_description` behind `lru_cache`, keyed on `(client, db)`. */
  function MemoDbSize(st: ProcessState, client: Client, db: string): Lookup<Json>
  {
    var key := (client.id, db);
    if key in st.sizes.entries then
      Lookup(st.sizes.entries[key], st.(sizes := Memo.Touch(st.sizes, key)))
    else
      var size := AllocatedStorage(client, db);
      Lookup(size, st.(sizes := Memo.Store(st.sizes, key, size),
                       requests := st.requests + [Request(client.id, DescribeDbInstances, db)]))
  }

  // ---------------------------------------------------------------------
  // Resolving a metric's resource

  /** The settings and clients `lambda_handler` sets up before its loop. */
  datatype Context = Context(
    region: Option<string>,
    accountId: Option<string>,
    prefixes: Prefixes,
    s3: Client,
    es: Client,
    rds: Client)

  /** `metric.get("dimensions", {}).get(name)` when it is a string. Every
      other outcome (no such dimension, `null`, a non-object `dimensions`, a
      non-string value) ends the lookup with `{}`, by a skip or a caught
      exception. */
  function Dimension(metric: Object, name: string): Option<string>
  {
    match GetOr(metric, "dimensions", JObj(map[]))
    case JObj(dims) =>
      (match Get(dims, name)
       case JStr(s) => Some(s)
       case _ => None)
    case _ => None
  }

  function DomainArn(ctx: Context, name: string): string {
    "arn:aws-us-gov:es:" + Show(ctx.region) + ":" + Show(ctx.accountId) + ":domain/" + name
  }

  function DbArn(ctx: Context, name: string): string {
    "arn:aws-us-gov:rds:" + Show(ctx.region) + ":" + Show(ctx.accountId) + ":db:" + name
  }

  /** `get_resource_tags_from_metric`. */
  function MetricTags(metric: Object, ctx: Context, st: ProcessState): Lookup<TagMap>
  {
    var namespace := Get(metric, "namespace");
    if namespace == JStr("AWS/S3") then
      match Dimension(metric, "BucketName")
      case Some(bucket) =>
        if StartsWith(bucket, ctx.prefixes.s3) then
          var l := MemoBucketTags(st, bucket, "S3", ctx.s3);
          Lookup(if l.value.Some? then l.value.value else map[], l.state)
        else Lookup(map[], st)
      case None => Lookup(map[], st)
    else if namespace == JStr("AWS/ES") then
      match Dimension(metric, "DomainName")
      case Some(domain) =>
        if StartsWith(domain, ctx.prefixes.domain) then MemoArnTags(st, DomainArn(ctx, domain), ctx.es)
        else Lookup(map[], st)
      case None => Lookup(map[], st)
    else if namespace == JStr("AWS/RDS") then
      match Dimension(metric, "DBInstanceIdentifier")
      case Some(db) =>
        if StartsWith(db, ctx.prefixes.rds) then
          var l := MemoArnTags(st, DbArn(ctx, db), ctx.rds);
          if Get(metric, "metric_name") == JStr("FreeStorageSpace") then
            var size := MemoDbSize(l.state, ctx.rds, db);
            Lookup(l.value["db_size" := size.value], size.state)
          else l
        else Lookup(map[], st)
      case None => Lookup(map[], st)
    else Lookup(map[], st)
  }

  /** `process_metric`: the metric with `Tags` set, or `None`. */
  function EnrichMetric(metric: Object, ctx: Context, st: ProcessState): Lookup<Option<Object>>
  {
    if Get(metric, "namespace") !in ExpectedNamespaces then Lookup(None, st)
    else
      var l := MetricTags(metric, ctx, st);
      if |l.value| > 0 then Lookup(Some(metric["Tags" := JObj(l.value)]), l.state)
      else Lookup(None, l.state)
  }

  /** One line of a record inside `lambda_handler`'s loop: strip the
      bookkeeping keys, enrich, then drop the `ClientId` dimension. It raises
      when `pop` is applied to a line that is not a JSON object, or to an
      enriched metric whose `dimensions` is not an object. */
  function MetricLine(v: Json, ctx: Context, st: ProcessState): Step<ProcessState>
  {
    match v
    case JObj(fields) =>
      var r := EnrichMetric(fields - DefaultKeysToRemove, ctx, st);
      (match r.value
       case None => Step([], r.state, false)
       case Some(m) =>
         if "dimensions" in m && m["dimensions"].JObj? then
           Step([m["dimensions" := JObj(m["dimensions"].fields - {"ClientId"})]], r.state, false)
         else Step([], r.state, true))
    case _ => Step([], st, true)
  }

  function MetricStep(ctx: Context): LineStep<ProcessState> {
    (v: Json, st: ProcessState) => MetricLine(v, ctx, st)
  }

  /** The context `lambda_handler` builds from its settings and clients. */
  function HandlerContext(env: Option<string>, region: Option<string>, accountId: Option<string>,
                          s3: Client, es: Client, rds: Client): Context
  {
    Context(region, accountId, MakePrefixes(env), s3, es, rds)
  }

  // ---------------------------------------------------------------------
  // The prefix gate and what the handler emits

  /** The dimension that names a metric's resource, by namespace. */
  function ResourceName(metric: Object): Option<string> {
    var namespace := Get(metric, "namespace");
    if namespace == JStr("AWS/S3") then Dimension(metric, "BucketName")
    else if namespace == JStr("AWS/ES") then Dimension(metric, "DomainName")
    else if namespace == JStr("AWS/RDS") then Dimension(metric, "DBInstanceIdentifier")
    else None
  }

  /** The prefix a metric's resource name must carry, by namespace. */
  function ResourcePrefix(metric: Object, p: Prefixes): string {
    var namespace := Get(metric, "namespace");
    if namespace == JStr("AWS/S3") then p.s3
    else if namespace == JStr("AWS/ES") then p.domain
    else p.rds
  }

  /** The metric names a resource of one of the expected kinds whose name
      carries this environment's prefix for that kind. */
  predicate PassesGate(metric: Object, p: Prefixes) {
    var name := ResourceName(metric);
    name.Some? && StartsWith(name.value, ResourcePrefix(metric, p))
  }

  /** A metric whose resource is missing or not this environment's is never
      looked up: no tags, no request, no cache touched. */
  lemma GateStopsLookups(metric: Object, ctx: Context, st: ProcessState)
    ensures !PassesGate(metric, ctx.prefixes) ==> MetricTags(metric, ctx, st) == Lookup(map[], st)
    ensures !PassesGate(metric, ctx.prefixes) ==> EnrichMetric(metric, ctx, st) == Lookup(None, st)
  {
  }

  /** A string dimension exists only inside an object-valued `dimensions`. */
  lemma DimensionInObject(metric: Object, name: string)
    ensures Dimension(metric, name).Some? ==>
              "dimensions" in metric && metric["dimensions"].JObj? &&
              Get(metric["dimensions"].fields, name) == JStr(Dimension(metric, name).value)
  {
  }

  /** `process_metric` returns a metric exactly when its namespace is
      expected and tags were found; it is the metric with those tags under
      `Tags`, and its `dimensions` is an object. */
  lemma EnrichMetricResult(metric: Object, ctx: Context, st: ProcessState)
    ensures var r, l := EnrichMetric(metric, ctx, st), MetricTags(metric, ctx, st);
      && (r.value.Some? <==> Get(metric, "namespace") in ExpectedNamespaces && |l.value| > 0)
      && (r.value.Some? ==>
            && r.value.value == metric["Tags" := JObj(l.value)]
            && PassesGate(metric, ctx.prefixes)
            && "dimensions" in metric && metric["dimensions"].JObj?)
  {
    GateStopsLookups(metric, ctx, st);
    if PassesGate(metric, ctx.prefixes) {
      DimensionInObject(metric, "BucketName");
      DimensionInObject(metric, "DomainName");
      DimensionInObject(metric, "DBInstanceIdentifier");
    }
  }

  /** What every entry of an `Ok` record looks like: the stream's
      bookkeeping keys are gone, the namespace is expected, the resource is
      this environment's, non-empty `Tags` are attached, and `dimensions`
      no longer holds `ClientId`. */
  predicate Emitted(e: Object, p: Prefixes) {
    && e.Keys !! DefaultKeysToRemove
    && Get(e, "namespace") in ExpectedNamespaces
    && PassesGate(e, p)
    && "Tags" in e && e["Tags"].JObj? && |e["Tags"].fields| > 0
    && "dimensions" in e && e["dimensions"].JObj? && "ClientId" !in e["dimensions"].fields
  }

  function EmittedUnder(p: Prefixes): Object -> bool {
    (e: Object) => Emitted(e, p)
  }

  /** One line yields at most one entry, and it is well formed; it yields
      one exactly when it is a JSON object that `process_metric` enriches. A
      line that is a JSON object never raises, because an enriched metric
      always has an object `dimensions` to `pop` from. */
  lemma MetricLineEmits(v: Json, ctx: Context, st: ProcessState)
    ensures var r := MetricLine(v, ctx, st);
      && |r.entries| <= 1
      && (|r.entries| == 1 <==> v.JObj? && EnrichMetric(v.fields - DefaultKeysToRemove, ctx, st).value.Some?)
      && (forall e :: e in r.entries ==> Emitted(e, ctx.prefixes))
      && (r.raised <==> !v.JObj?)
  {
    if v.JObj? {
      var metric := v.fields - DefaultKeysToRemove;
      EnrichMetricResult(metric, ctx, st);
      var r := EnrichMetric(metric, ctx, st);
      if r.value.Some? {
        var tags := MetricTags(metric, ctx, st).value;
        EnrichedEntryEmitted(metric, tags, ctx.prefixes);
      }
    }
  }

  /** The entry built from an enriched metric is well formed. */
  lemma EnrichedEntryEmitted(metric: Object, tags: TagMap, p: Prefixes)
    requires metric.Keys !! DefaultKeysToRemove
    requires Get(metric, "namespace") in ExpectedNamespaces && PassesGate(metric, p) && |tags| > 0
    requires "dimensions" in metric && metric["dimensions"].JObj?
    ensures var m := metric["Tags" := JObj(tags)];
      Emitted(m["dimensions" := JObj(m["dimensions"].fields - {"ClientId"})], p)
  {
    PopClientIdKeepsIdentity(metric, tags);
  }

  /** Every entry of every `Ok` record the handler returns is well formed. */
  lemma HandlerEmits(records: Option<seq<InputRecord>>, decode: Decoder, ctx: Context, st: ProcessState)
    ensures EntriesSatisfy(Transform(records, decode, MetricStep(ctx), st).outputs, EmittedUnder(ctx.prefixes))
  {
    forall v, s ensures !MetricStep(ctx)(v, s).raised ==>
        forall e :: e in MetricStep(ctx)(v, s).entries ==> EmittedUnder(ctx.prefixes)(e)
    {
      MetricLineEmits(v, ctx, s);
    }
    if records.Some? {
      BatchEnsures(records.value, decode, MetricStep(ctx), st, EmittedUnder(ctx.prefixes));
    }
  }

  /** The handler's records line up with its input (see `BatchAligned`):
      output `i` is what record `i` yields after the records before it. */
  lemma HandlerAligned(records: seq<InputRecord>, decode: Decoder, ctx: Context, st: ProcessState)
    ensures var b := Transform(Some(records), decode, MetricStep(ctx), st);
      && |b.outputs| <= |records|
      && (!b.raised <==> |b.outputs| == |records|)
      && forall i :: 0 <= i < |b.outputs| ==>
           ProcessRecord(records[i], decode, MetricStep(ctx), StateBefore(records, i, decode, MetricStep(ctx), st)).output
             == Some(b.outputs[i])
  {
    BatchAligned(records, decode, MetricStep(ctx), st);
  }

  /** Line `j` of a record is a metric that `process_metric` enriches, in
      the state the lines before it left behind. */
  predicate LineEnriched(lines: seq<Option<Json>>, j: nat, ctx: Context, s: ProcessState)
    requires j < |lines|
  {
    && lines[j].Some? && lines[j].value.JObj?
    && EnrichMetric(lines[j].value.fields - DefaultKeysToRemove, ctx,
                    ProcessLines(lines[..j], MetricStep(ctx), s).state).value.Some?
  }

  /** A record that gets an output is `Ok` exactly when one of its lines is
      enriched, and `Dropped` when none is. */
  lemma RecordOkIffEnriched(r: InputRecord, decode: Decoder, ctx: Context, s: ProcessState)
    ensures var h := ProcessRecord(r, decode, MetricStep(ctx), s);
      h.output.Some? ==>
        && r.data.Some? && decode(r.data.value).Some?
        && var lines := decode(r.data.value).value;
           (h.output.value.result.Ok? <==> exists j :: 0 <= j < |lines| && LineEnriched(lines, j, ctx, s))
  {
    var h := ProcessRecord(r, decode, MetricStep(ctx), s);
    if h.output.Some? {
      var lines := decode(r.data.value).value;
      LinesEntriesFromSteps(lines, MetricStep(ctx), s);
      forall j | 0 <= j < |lines| && lines[j].Some?
        ensures MetricStep(ctx)(lines[j].value, ProcessLines(lines[..j], MetricStep(ctx), s).state).entries != []
                <==> LineEnriched(lines, j, ctx, s)
      {
        MetricLineEmits(lines[j].value, ctx, ProcessLines(lines[..j], MetricStep(ctx), s).state);
      }
    }
  }

  /** Output `i` of the handler is `Ok` exactly when one of record `i`'s
      lines is enriched, in the state the records and lines before it left
      behind: every metric `process_metric` returns is appended. */
  lemma HandlerOkIffEnriched(records: seq<InputRecord>, decode: Decoder, ctx: Context, st: ProcessState, i: nat)
    requires i < |Transform(Some(records), decode, MetricStep(ctx), st).outputs|
    ensures var o := Transform(Some(records), decode, MetricStep(ctx), st).outputs[i];
      && i < |records| && records[i].data.Some? && decode(records[i].data.value).Some?
      && var lines := decode(records[i].data.value).value;
         (o.result.Ok? <==>
            exists j :: 0 <= j < |lines| &&
              LineEnriched(lines, j, ctx, StateBefore(records, i, decode, MetricStep(ctx), st)))
  {
    HandlerAligned(records, decode, ctx, st);
    RecordOkIffEnriched(records[i], decode, ctx, StateBefore(records, i, decode, MetricStep(ctx), st));
  }

  // ---------------------------------------------------------------------
  // Memoisation

  /** A second identical lookup of an ARN sends nothing and answers the
      same. */
  lemma MemoArnTagsRepeat(st: ProcessState, arn: string, client: Client)
    requires Memo.Valid(st.arns)
    ensures var l1 := MemoArnTags(st, arn, client);
            var l2 := MemoArnTags(l1.state, arn, client);
      && Memo.Valid(l1.state.arns)
      && l2.value == l1.value
      && l2.state.requests == l1.state.requests
  {
    var key := (arn, client.id);
    if key in st.arns.entries {
      Memo.TouchKeeps(st.arns, key);
    } else {
      Memo.StoreKeeps(st.arns, key, ArnTags(arn, client));
    }
  }

  /** A bucket lookup that ended in a result (tags, or `{}` after
      `NoSuchTagSet`) is answered from the cache the second time; one that
      raised stored nothing, and the second lookup asks again. */
  lemma MemoBucketTagsRepeat(st: ProcessState, name: string, kind: string, client: Client)
    requires Memo.Valid(st.names)
    ensures var l1 := MemoBucketTags(st, name, kind, client);
            var l2 := MemoBucketTags(l1.state, name, kind, client);
      && Memo.Valid(l1.state.names)
      && (l1.value.Some? ==> l2.value == l1.value && l2.state.requests == l1.state.requests)
      && (l1.value.None? ==>
            l2.value == None && l2.state.requests == l1.state.requests + BucketRequests(name, kind, client))
  {
    var key := (name, kind, client.id);
    if key in st.names.entries {
      Memo.TouchKeeps(st.names, key);
    } else if BucketTags(name, kind, client).Some? {
      Memo.StoreKeeps(st.names, key, BucketTags(name, kind, client).value);
    }
  }

  /** The same for the storage size of an instance. */
  lemma MemoDbSizeRepeat(st: ProcessState, client: Client, db: string)
    requires Memo.Valid(st.sizes)
    ensures var l1 := MemoDbSize(st, client, db);
            var l2 := MemoDbSize(l1.state, client, db);
      && Memo.Valid(l1.state.sizes)
      && l2.value == l1.value
      && l2.state.requests == l1.state.requests
  {
    var key := (client.id, db);
    if key in st.sizes.entries {
      Memo.TouchKeeps(st.sizes, key);
    } else {
      Memo.StoreKeeps(st.sizes, key, AllocatedStorage(client, db));
    }
  }

  // ---------------------------------------------------------------------
  // The handler without its caches, and why the caches do not matter

  /** What a lookup of a bucket comes to once a raised exception has been
      caught by `get_resource_tags_from_metric`. */
  function CaughtBucketTags(name: string, kind: string, client: Client): TagMap {
    match BucketTags(name, kind, client)
    case Some(t) => t
    case None => map[]
  }

  /** `get_resource_tags_from_metric` with every lookup performed afresh. */
  function PlainMetricTags(metric: Object, ctx: Context): TagMap {
    var namespace := Get(metric, "namespace");
    var name := Dimension(metric, if namespace == JStr("AWS/S3") then "BucketName"
                                  else if namespace == JStr("AWS/ES") then "DomainName"
                                  else "DBInstanceIdentifier");
    if namespace == JStr("AWS/S3") && name.Some? && StartsWith(name.value, ctx.prefixes.s3) then
      CaughtBucketTags(name.value, "S3", ctx.s3)
    else if namespace == JStr("AWS/ES") && name.Some? && StartsWith(name.value, ctx.prefixes.domain) then
      ArnTags(DomainArn(ctx, name.value), ctx.es)
    else if namespace == JStr("AWS/RDS") && name.Some? && StartsWith(name.value, ctx.prefixes.rds) then
      var tags := ArnTags(DbArn(ctx, name.value), ctx.rds);
      if Get(metric, "metric_name") == JStr("FreeStorageSpace") then
        tags["db_size" := AllocatedStorage(ctx.rds, name.value)]
      else tags
    else map[]
  }

  /** One line with every lookup performed afresh. */
  function PlainLine(v: Json, ctx: Context): Step<()> {
    match v
    case JObj(fields) =>
      var metric := fields - DefaultKeysToRemove;
      var tags := PlainMetricTags(metric, ctx);
      if Get(metric, "namespace") !in ExpectedNamespaces || |tags| == 0 then Step([], (), false)
      else
        var m := metric["Tags" := JObj(tags)];
        if "dimensions" in m && m["dimensions"].JObj? then
          Step([m["dimensions" := JObj(m["dimensions"].fields - {"ClientId"})]], (), false)
        else Step([], (), true)
    case _ => Step([], (), true)
  }

  function PlainStep(ctx: Context): LineStep<()> {
    (v: Json, u: ()) => PlainLine(v, ctx)
  }

  function ArnResults(client: Client): ArnKey -> TagMap {
    (k: ArnKey) => ArnTags(k.0, client)
  }

  function ArnKeysOf(client: Client): ArnKey -> bool {
    (k: ArnKey) => k.1 == client.id
  }

  function NameResults(client: Client): NameKey -> TagMap {
    (k: NameKey) => CaughtBucketTags(k.0, k.1, client)
  }

  function NameKeysOf(client: Client): NameKey -> bool {
    (k: NameKey) => k.2 == client.id
  }

  function SizeResults(client: Client): SizeKey -> Json {
    (k: SizeKey) => AllocatedStorage(client, k.1)
  }

  function SizeKeysOf(client: Client): SizeKey -> bool {
    (k: SizeKey) => k.0 == client.id
  }

  /** Every cached result that belongs to one of the context's clients is
      what that client answers now; the OpenSearch and RDS clients are two
      objects, so their entries of the shared ARN cache are told apart. */
  ghost predicate Consistent(st: ProcessState, ctx: Context) {
    && CachesValid(st)
    && ctx.es.id != ctx.rds.id
    && Memo.Agrees(st.arns, ArnResults(ctx.es), ArnKeysOf(ctx.es))
    && Memo.Agrees(st.arns, ArnResults(ctx.rds), ArnKeysOf(ctx.rds))
    && Memo.Agrees(st.names, NameResults(ctx.s3), NameKeysOf(ctx.s3))
    && Memo.Agrees(st.sizes, SizeResults(ctx.rds), SizeKeysOf(ctx.rds))
  }

  ghost function ConsistentUnder(ctx: Context): ProcessState -> bool {
    (st: ProcessState) => Consistent(st, ctx)
  }

  /** `lambda_handler` builds new clients on every invocation, and a cache
      entry is keyed on the client it was fetched with, so none of the
      entries left by earlier invocations belongs to this invocation's
      clients: the caches start every invocation consistent. */
  lemma FreshClientsConsistent(st: ProcessState, ctx: Context)
    requires CachesValid(st) && ctx.es.id != ctx.rds.id
    requires forall k :: k in st.arns.entries ==> k.1 != ctx.es.id && k.1 != ctx.rds.id
    requires forall k :: k in st.names.entries ==> k.2 != ctx.s3.id
    requires forall k :: k in st.sizes.entries ==> k.0 != ctx.rds.id
    ensures Consistent(st, ctx)
  {
  }

  /** A cached ARN lookup answers what the client answers, and keeps both
      ARN clients' entries consistent. */
  lemma {:induction false} MemoArnTagsTransparent(st: ProcessState, arn: string, client: Client, other: Client)
    requires Memo.Valid(st.arns) && client.id != other.id
    requires Memo.Agrees(st.arns, ArnResults(client), ArnKeysOf(client))
    requires Memo.Agrees(st.arns, ArnResults(other), ArnKeysOf(other))
    ensures var l := MemoArnTags(st, arn, client);
      && l.value == ArnTags(arn, client)
      && Memo.Valid(l.state.arns)
      && Memo.Agrees(l.state.arns, ArnResults(client), ArnKeysOf(client))
      && Memo.Agrees(l.state.arns, ArnResults(other), ArnKeysOf(other))
      && l.state.names == st.names && l.state.sizes == st.sizes
  {
    var key := (arn, client.id);
    if key in st.arns.entries {
      Memo.TouchKeeps(st.arns, key);
      Memo.TouchAgrees(st.arns, key, ArnResults(client), ArnKeysOf(client));
    } else {
      var tags := ArnTags(arn, client);
      Memo.StoreKeeps(st.arns, key, tags);
      Memo.StoreAgrees(st.arns, key, tags, ArnResults(client), ArnKeysOf(client));
      Memo.StoreAgrees(st.arns, key, tags, ArnResults(other), ArnKeysOf(other));
    }
  }

  lemma {:induction false} MemoBucketTagsTransparent(st: ProcessState, name: string, client: Client)
    requires Memo.Valid(st.names) && Memo.Agrees(st.names, NameResults(client), NameKeysOf(client))
    ensures var l := MemoBucketTags(st, name, "S3", client);
      && (if l.value.Some? then l.value.value else map[]) == CaughtBucketTags(name, "S3", client)
      && Memo.Valid(l.state.names)
      && Memo.Agrees(l.state.names, NameResults(client), NameKeysOf(client))
      && l.state.arns == st.arns && l.state.sizes == st.sizes
  {
    var key := (name, "S3", client.id);
    if key in st.names.entries {
      Memo.TouchKeeps(st.names, key);
      Memo.TouchAgrees(st.names, key, NameResults(client), NameKeysOf(client));
    } else if BucketTags(name, "S3", client).Some? {
      var tags := BucketTags(name, "S3", client).value;
      Memo.StoreKeeps(st.names, key, tags);
      Memo.StoreAgrees(st.names, key, tags, NameResults(client), NameKeysOf(client));
    }
  }

  lemma {:induction false} MemoDbSizeTransparent(st: ProcessState, client: Client, db: string)
    requires Memo.Valid(st.sizes) && Memo.Agrees(st.sizes, SizeResults(client), SizeKeysOf(client))
    ensures var l := MemoDbSize(st, client, db);
      && l.value == AllocatedStorage(client, db)
      && Memo.Valid(l.state.sizes)
      && Memo.Agrees(l.state.sizes, SizeResults(client), SizeKeysOf(client))
      && l.state.arns == st.arns && l.state.names == st.names
  {
    var key := (client.id, db);
    if key in st.sizes.entries {
      Memo.TouchKeeps(st.sizes, key);
      Memo.TouchAgrees(st.sizes, key, SizeResults(client), SizeKeysOf(client));
    } else {
      var size := AllocatedStorage(client, db);
      Memo.StoreKeeps(st.sizes, key, size);
      Memo.StoreAgrees(st.sizes, key, size, SizeResults(client), SizeKeysOf(client));
    }
  }

  /** The cached `get_resource_tags_from_metric` finds what the uncached one
      finds, and leaves the caches consistent. */
  lemma MetricTagsTransparent(metric: Object, ctx: Context, st: ProcessState)
    requires Consistent(st, ctx)
    ensures var l := MetricTags(metric, ctx, st);
      l.value == PlainMetricTags(metric, ctx) && Consistent(l.state, ctx)
  {
    var namespace := Get(metric, "namespace");
    if namespace == JStr("AWS/S3") {
      var bucket := Dimension(metric, "BucketName");
      if bucket.Some? && StartsWith(bucket.value, ctx.prefixes.s3) {
        MemoBucketTagsTransparent(st, bucket.value, ctx.s3);
      }
    } else if namespace == JStr("AWS/ES") {
      var domain := Dimension(metric, "DomainName");
      if domain.Some? && StartsWith(domain.value, ctx.prefixes.domain) {
        MemoArnTagsTransparent(st, DomainArn(ctx, domain.value), ctx.es, ctx.rds);
      }
    } else if namespace == JStr("AWS/RDS") {
      var db := Dimension(metric, "DBInstanceIdentifier");
      if db.Some? && StartsWith(db.value, ctx.prefixes.rds) {
        DbTagsTransparent(metric, db.value, ctx, st);
      }
    }
  }

  /** The RDS branch of `MetricTagsTransparent`. */
  lemma DbTagsTransparent(metric: Object, db: string, ctx: Context, st: ProcessState)
    requires Consistent(st, ctx)
    requires Get(metric, "namespace") == JStr("AWS/RDS")
    requires Dimension(metric, "DBInstanceIdentifier") == Some(db) && StartsWith(db, ctx.prefixes.rds)
    ensures var l := MetricTags(metric, ctx, st);
      l.value == PlainMetricTags(metric, ctx) && Consistent(l.state, ctx)
  {
    MemoArnTagsTransparent(st, DbArn(ctx, db), ctx.rds, ctx.es);
    var l := MemoArnTags(st, DbArn(ctx, db), ctx.rds);
    MemoDbSizeTransparent(l.state, ctx.rds, db);
    var size := MemoDbSize(l.state, ctx.rds, db);
    assert MetricTags(metric, ctx, st)
        == (if Get(metric, "metric_name") == JStr("FreeStorageSpace")
            then Lookup(l.value["db_size" := size.value], size.state) else l);
  }

  /** The cached line step simulates the uncached one. */
  lemma MetricStepSimulates(ctx: Context)
    ensures Simulates(MetricStep(ctx), ConsistentUnder(ctx), PlainStep(ctx))
  {
    forall v, st | ConsistentUnder(ctx)(st)
      ensures && ConsistentUnder(ctx)(MetricStep(ctx)(v, st).state)
              && MetricStep(ctx)(v, st).entries == PlainStep(ctx)(v, ()).entries
              && MetricStep(ctx)(v, st).raised == PlainStep(ctx)(v, ()).raised
    {
      MetricLineSimulates(v, ctx, st);
    }
  }

  /** On consistent caches one line gives the uncached line's entries and
      exception, and keeps the caches consistent. */
  lemma MetricLineSimulates(v: Json, ctx: Context, st: ProcessState)
    requires Consistent(st, ctx)
    ensures var r := MetricLine(v, ctx, st);
      && Consistent(r.state, ctx)
      && r.entries == PlainLine(v, ctx).entries
      && r.raised == PlainLine(v, ctx).raised
  {
    if v.JObj? {
      var metric := v.fields - DefaultKeysToRemove;
      MetricTagsTransparent(metric, ctx, st);
      var l := MetricTags(metric, ctx, st);
      assert EnrichMetric(metric, ctx, st).value
          == (if Get(metric, "namespace") !in ExpectedNamespaces || |l.value| == 0 then None
              else Some(metric["Tags" := JObj(PlainMetricTags(metric, ctx))]));
    }
  }

  /** Memoisation is transparent: on consistent caches the handler returns
      exactly the records the handler without caches returns, and the
      caches stay consistent for the next invocation. */
  lemma CacheIsTransparent(records: Option<seq<InputRecord>>, decode: Decoder, ctx: Context, st: ProcessState)
    requires Consistent(st, ctx)
    ensures var b := Transform(records, decode, MetricStep(ctx), st);
      && b.outputs == Transform(records, decode, PlainStep(ctx), ()).outputs
      && Consistent(b.state, ctx)
  {
    if records.Some? {
      MetricStepSimulates(ctx);
      BatchSimulate(records.value, decode, MetricStep(ctx), ConsistentUnder(ctx), PlainStep(ctx), st);
    }
  }

  // ---------------------------------------------------------------------
  // Ownership of RDS tags

  /** AWS account ids, region names and instance identifiers hold no `/`. */
  predicate SlashFree(setting: Option<string>) {
    setting.Some? ==> '/' !in setting.value
  }

  /** An instance ARN the handler builds is a `:db:` ARN and, with no `/` in
      it, not a `:domain/` one. */
  lemma DbArnKind(ctx: Context, name: string)
    requires SlashFree(ctx.region) && SlashFree(ctx.accountId) && '/' !in name
    ensures Contains(DbArn(ctx, name), ":db:") && !Contains(DbArn(ctx, name), ":domain/")
  {
    var prefix := "arn:aws-us-gov:rds:" + Show(ctx.region) + ":" + Show(ctx.accountId);
    ContainsInfix(prefix, ":db:", name);
    assert '/' !in "arn:aws-us-gov:rds:";
    assert '/' !in "None";
    assert '/' !in DbArn(ctx, name);
    if Contains(DbArn(ctx, name), ":domain/") {
      CharOfContained(DbArn(ctx, name), ":domain/", '/');
    }
  }

  /** An RDS metric other than `FreeStorageSpace` is tagged only with the
      tag set of an instance that carries `Organization GUID`. */
  predicate OwnedTags(e: Object, ctx: Context) {
    && Get(e, "namespace") == JStr("AWS/RDS")
    && Get(e, "metric_name") != JStr("FreeStorageSpace")
    && ResourceName(e).Some? && '/' !in ResourceName(e).value
    && SlashFree(ctx.region) && SlashFree(ctx.accountId)
    ==> "Tags" in e && e["Tags"].JObj? && OwnershipKey in e["Tags"].fields
  }

  function OwnedUnder(ctx: Context): Object -> bool {
    (e: Object) => OwnedTags(e, ctx)
  }

  /** The ownership gate of `get_tags_from_arn`: the tags found for an
      instance are empty or carry `Organization GUID`. */
  lemma RdsTagsOwned(metric: Object, ctx: Context)
    requires Get(metric, "namespace") == JStr("AWS/RDS")
    requires Get(metric, "metric_name") != JStr("FreeStorageSpace")
    requires SlashFree(ctx.region) && SlashFree(ctx.accountId)
    requires ResourceName(metric).Some? ==> '/' !in ResourceName(metric).value
    ensures var tags := PlainMetricTags(metric, ctx);
      tags == map[] || OwnershipKey in tags
  {
    var db := Dimension(metric, "DBInstanceIdentifier");
    if db.Some? {
      DbArnKind(ctx, db.value);
    }
  }

  /** A domain of this environment gets its whole tag list, with no
      ownership check, or `{}` when `list_tags` fails. */
  lemma DomainTagsWhole(metric: Object, ctx: Context)
    requires Get(metric, "namespace") == JStr("AWS/ES") && PassesGate(metric, ctx.prefixes)
    requires !Contains(DomainArn(ctx, ResourceName(metric).value), ":db:")
    ensures var r := ctx.es.tagging(ListTags, DomainArn(ctx, ResourceName(metric).value));
      PlainMetricTags(metric, ctx) == (if r.Success? then ToMap(r.value) else map[])
  {
    var name := ResourceName(metric).value;
    ContainsInfix("arn:aws-us-gov:es:" + Show(ctx.region) + ":" + Show(ctx.accountId), ":domain/", name);
  }

  /** A bucket of this environment gets its whole tag list, with no
      ownership check, or `{}` when `get_bucket_tagging` fails: a
      `NoSuchTagSet` is caught in the lookup, any other error around it. */
  lemma BucketTagsWhole(metric: Object, ctx: Context)
    requires Get(metric, "namespace") == JStr("AWS/S3") && PassesGate(metric, ctx.prefixes)
    ensures var r := ctx.s3.tagging(GetBucketTagging, ResourceName(metric).value);
      PlainMetricTags(metric, ctx) == (if r.Success? then ToMap(r.value) else map[])
  {
  }

  /** `FreeStorageSpace` of this environment's instances is always enriched,
      with the allocated storage under `db_size`, whether or not the
      instance carries `Organization GUID`. */
  lemma FreeStorageSpaceEnriched(metric: Object, ctx: Context)
    requires Get(metric, "namespace") == JStr("AWS/RDS")
    requires Get(metric, "metric_name") == JStr("FreeStorageSpace")
    requires PassesGate(metric, ctx.prefixes)
    ensures var tags := PlainMetricTags(metric, ctx);
      && "db_size" in tags
      && tags["db_size"] == AllocatedStorage(ctx.rds, ResourceName(metric).value)
      && |tags| > 0
  {
  }

  /** An entry of the uncached line step keeps its namespace, metric name
      and instance, so the ownership gate carries over to it. */
  lemma PlainLineOwned(v: Json, ctx: Context)
    ensures forall e :: e in PlainLine(v, ctx).entries ==> OwnedTags(e, ctx)
  {
    if v.JObj? {
      var metric := v.fields - DefaultKeysToRemove;
      var tags := PlainMetricTags(metric, ctx);
      if Get(metric, "namespace") == JStr("AWS/RDS") && Get(metric, "metric_name") != JStr("FreeStorageSpace")
         && SlashFree(ctx.region) && SlashFree(ctx.accountId)
         && (ResourceName(metric).Some? ==> '/' !in ResourceName(metric).value) {
        RdsTagsOwned(metric, ctx);
      }
      var m := metric["Tags" := JObj(tags)];
      if "dimensions" in m && m["dimensions"].JObj? {
        PopClientIdKeepsIdentity(metric, tags);
      }
    }
  }

  /** Setting `Tags` and popping `dimensions.ClientId` leaves the namespace,
      the metric name and the instance as they were. */
  lemma PopClientIdKeepsIdentity(metric: Object, tags: TagMap)
    requires "dimensions" in metric && metric["dimensions"].JObj?
    ensures var m := metric["Tags" := JObj(tags)];
            var e := m["dimensions" := JObj(m["dimensions"].fields - {"ClientId"})];
      && Get(e, "namespace") == Get(metric, "namespace")
      && Get(e, "metric_name") == Get(metric, "metric_name")
      && ResourceName(e) == ResourceName(metric)
      && e["Tags"] == JObj(tags)
  {
    var m := metric["Tags" := JObj(tags)];
    var dims := m["dimensions"].fields;
    assert Get(dims - {"ClientId"}, "DBInstanceIdentifier") == Get(dims, "DBInstanceIdentifier");
  }

  /** On consistent caches, every RDS entry other than `FreeStorageSpace`
      that the handler emits carries `Organization GUID` among its tags. */
  lemma HandlerEmitsOwnedRdsTags(records: Option<seq<InputRecord>>, decode: Decoder, ctx: Context, st: ProcessState)
    requires Consistent(st, ctx)
    ensures EntriesSatisfy(Transform(records, decode, MetricStep(ctx), st).outputs, OwnedUnder(ctx))
  {
    CacheIsTransparent(records, decode, ctx, st);
    forall v, u: () ensures !PlainStep(ctx)(v, u).raised ==>
        forall e :: e in PlainStep(ctx)(v, u).entries ==> OwnedUnder(ctx)(e)
    {
      PlainLineOwned(v, ctx);
    }
    if records.Some? {
      BatchEnsures(records.value, decode, PlainStep(ctx), (), OwnedUnder(ctx));
    }
  }

  // ---------------------------------------------------------------------
  // Lookup keys and the `FreeStorageSpace` copy

  /** The lookup a gated metric leads to on a cache miss: the bare bucket
      name with `get_bucket_tagging`, the domain ARN with `list_tags`, the
      instance ARN with `list_tags_for_resource`, each sent first. */
  lemma LookupRequests(metric: Object, ctx: Context, st: ProcessState)
    requires PassesGate(metric, ctx.prefixes)
    ensures var name, l := ResourceName(metric).value, MetricTags(metric, ctx, st);
      && (Get(metric, "namespace") == JStr("AWS/S3") && (name, "S3", ctx.s3.id) !in st.names.entries ==>
            l.state.requests == st.requests + [Request(ctx.s3.id, GetBucketTagging, name)])
      && (Get(metric, "namespace") == JStr("AWS/ES") && (DomainArn(ctx, name), ctx.es.id) !in st.arns.entries ==>
            |l.state.requests| > |st.requests| &&
            l.state.requests[..|st.requests| + 1] == st.requests + [Request(ctx.es.id, ListTags, DomainArn(ctx, name))])
      && (Get(metric, "namespace") == JStr("AWS/RDS") && (DbArn(ctx, name), ctx.rds.id) !in st.arns.entries &&
          SlashFree(ctx.region) && SlashFree(ctx.accountId) && '/' !in name ==>
            |l.state.requests| > |st.requests| &&
            l.state.requests[..|st.requests| + 1] == st.requests + [Request(ctx.rds.id, ListTagsForResource, DbArn(ctx, name))])
  {
    var name := ResourceName(metric).value;
    var namespace := Get(metric, "namespace");
    if namespace == JStr("AWS/ES") && (DomainArn(ctx, name), ctx.es.id) !in st.arns.entries {
      DomainLookupRequest(metric, ctx, st);
    } else if namespace == JStr("AWS/RDS") && (DbArn(ctx, name), ctx.rds.id) !in st.arns.entries
              && SlashFree(ctx.region) && SlashFree(ctx.accountId) && '/' !in name {
      DbLookupRequest(metric, ctx, st);
    }
  }

  lemma DomainLookupRequest(metric: Object, ctx: Context, st: ProcessState)
    requires PassesGate(metric, ctx.prefixes) && Get(metric, "namespace") == JStr("AWS/ES")
    requires (DomainArn(ctx, ResourceName(metric).value), ctx.es.id) !in st.arns.entries
    ensures var name, l := ResourceName(metric).value, MetricTags(metric, ctx, st);
      |l.state.requests| > |st.requests| &&
      l.state.requests[..|st.requests| + 1] == st.requests + [Request(ctx.es.id, ListTags, DomainArn(ctx, name))]
  {
    var name := ResourceName(metric).value;
    var arn := DomainArn(ctx, name);
    ContainsInfix("arn:aws-us-gov:es:" + Show(ctx.region) + ":" + Show(ctx.accountId), ":domain/", name);
    var sent := st.requests + [Request(ctx.es.id, ListTags, arn)];
    var rest := if Contains(arn, ":db:") then [Request(ctx.es.id, ListTagsForResource, arn)] else [];
    assert Dimension(metric, "DomainName") == Some(name);
    assert MetricTags(metric, ctx, st) == MemoArnTags(st, arn, ctx.es);
    assert MetricTags(metric, ctx, st).state.requests == sent + rest;
    assert (sent + rest)[..|sent|] == sent;
  }

  lemma DbLookupRequest(metric: Object, ctx: Context, st: ProcessState)
    requires PassesGate(metric, ctx.prefixes) && Get(metric, "namespace") == JStr("AWS/RDS")
    requires (DbArn(ctx, ResourceName(metric).value), ctx.rds.id) !in st.arns.entries
    requires SlashFree(ctx.region) && SlashFree(ctx.accountId) && '/' !in ResourceName(metric).value
    ensures var name, l := ResourceName(metric).value, MetricTags(metric, ctx, st);
      |l.state.requests| > |st.requests| &&
      l.state.requests[..|st.requests| + 1] == st.requests + [Request(ctx.rds.id, ListTagsForResource, DbArn(ctx, name))]
  {
    var name := ResourceName(metric).value;
    var arn := DbArn(ctx, name);
    DbArnKind(ctx, name);
    var sent := st.requests + [Request(ctx.rds.id, ListTagsForResource, arn)];
    var l := MemoArnTags(st, arn, ctx.rds);
    assert l.state.requests == sent;
    assert Dimension(metric, "DBInstanceIdentifier") == Some(name);
    var rest := if Get(metric, "metric_name") == JStr("FreeStorageSpace") then
                  MemoDbSize(l.state, ctx.rds, name).state.requests[|sent|..]
                else [];
    assert MetricTags(metric, ctx, st).state.requests == sent + rest;
    assert (sent + rest)[..|sent|] == sent;
  }

  /** For `FreeStorageSpace` the tags are a copy: the metric gets the
      instance's cached tags plus `db_size`, while the cache keeps the tags
      as `get_tags_from_arn` returned them. */
  lemma FreeStorageSpaceCopiesTags(metric: Object, ctx: Context, st: ProcessState)
    requires Memo.Valid(st.arns)
    requires Get(metric, "namespace") == JStr("AWS/RDS")
    requires Get(metric, "metric_name") == JStr("FreeStorageSpace")
    requires PassesGate(metric, ctx.prefixes)
    ensures var db := ResourceName(metric).value;
            var arn := MemoArnTags(st, DbArn(ctx, db), ctx.rds);
            var l := MetricTags(metric, ctx, st);
      && (DbArn(ctx, db), ctx.rds.id) in l.state.arns.entries
      && l.state.arns.entries[(DbArn(ctx, db), ctx.rds.id)] == arn.value
      && l.value == arn.value["db_size" := MemoDbSize(arn.state, ctx.rds, db).value]
      && |l.value| > 0
  {
    var db := ResourceName(metric).value;
    var key := (DbArn(ctx, db), ctx.rds.id);
    var arn := MemoArnTags(st, DbArn(ctx, db), ctx.rds);
    var size := MemoDbSize(arn.state, ctx.rds, db);
    assert Dimension(metric, "DBInstanceIdentifier") == Some(db);
    assert MetricTags(metric, ctx, st) == Lookup(arn.value["db_size" := size.value], size.state);
    assert size.state.arns == arn.state.arns;
    if key in st.arns.entries {
      Memo.TouchKeeps(st.arns, key);
    } else {
      Memo.StoreKeeps(st.arns, key, ArnTags(DbArn(ctx, db), ctx.rds));
    }
  }

  // ---------------------------------------------------------------------
  // The warm Lambda process

  /** The module-level state of the deployed function: the three
      `lru_cache`s survive from one invocation to the next, and the requests
      sent to the inventory clients are recorded in order. */
  class MetricTransformer {
    var arnCache: Memo.Lru<ArnKey, TagMap>
    var nameCache: Memo.Lru<NameKey, TagMap>
    var sizeCache: Memo.Lru<SizeKey, Json>
    var requests: seq<Request>

    function State(): ProcessState
      reads this
    {
      ProcessState(arnCache, nameCache, sizeCache, requests)
    }

    ghost predicate Valid()
      reads this
    {
      CachesValid(State())
    }

    /** A cold start: empty caches, no requests sent. */
    constructor ()
      ensures Valid()
      ensures State() == ProcessState(Memo.Empty(), Memo.Empty(), Memo.Empty(), [])
    {
      arnCache, nameCache, sizeCache := Memo.Empty(), Memo.Empty(), Memo.Empty();
      requests := [];
    }

    /** `get_tags_from_arn(arn, client)` through its cache. */
    method GetTagsFromArn(arn: string, client: Client) returns (tags: TagMap)
      requires Valid()
      modifies this
      ensures Valid()
      ensures Lookup(tags, State()) == MemoArnTags(old(State()), arn, client)
    {
      var key := (arn, client.id);
      if key in arnCache.entries {
        tags := arnCache.entries[key];
        Memo.TouchKeeps(arnCache, key);
        arnCache := Memo.Touch(arnCache, key);
      } else {
        tags := ArnTags(arn, client);
        requests := requests + ArnRequests(arn, client);
        Memo.StoreKeeps(arnCache, key, tags);
        arnCache := Memo.Store(arnCache, key, tags);
      }
    }

    /** `get_tags_from_name(name, type, client)` through its cache; `None`
        when the S3 call raised something other than `NoSuchTagSet`. */
    method GetTagsFromName(name: string, kind: string, client: Client) returns (tags: Option<TagMap>)
      requires Valid()
      modifies this
      ensures Valid()
      ensures Lookup(tags, State()) == MemoBucketTags(old(State()), name, kind, client)
    {
      var key := (name, kind, client.id);
      if key in nameCache.entries {
        tags := Some(nameCache.entries[key]);
        Memo.TouchKeeps(nameCache, key);
        nameCache := Memo.Touch(nameCache, key);
      } else {
        tags := BucketTags(name, kind, client);
        requests := requests + BucketRequests(name, kind, client);
        if tags.Some? {
          Memo.StoreKeeps(nameCache, key, tags.value);
          nameCache := Memo.Store(nameCache, key, tags.value);
        }
      }
    }

    /** `get_rds_description(client, db)` through its cache. */
    method GetRdsDescription(client: Client, db: string) returns (size: Json)
      requires Valid()
      modifies this
      ensures Valid()
      ensures Lookup(size, State()) == MemoDbSize(old(State()), client, db)
    {
      var key := (client.id, db);
      if key in sizeCache.entries {
        size := sizeCache.entries[key];
        Memo.TouchKeeps(sizeCache, key);
        sizeCache := Memo.Touch(sizeCache, key);
      } else {
        size := AllocatedStorage(client, db);
        requests := requests + [Request(client.id, DescribeDbInstances, db)];
        Memo.StoreKeeps(sizeCache, key, size);
        sizeCache := Memo.Store(sizeCache, key, size);
      }
    }

    /** `get_resource_tags_from_metric`. */
    method GetResourceTagsFromMetric(metric: Object, ctx: Context) returns (tags: TagMap)
      requires Valid()
      modifies this
      ensures Valid()
      ensures Lookup(tags, State()) == MetricTags(metric, ctx, old(State()))
    {
      tags := map[];
      var namespace := Get(metric, "namespace");
      if namespace == JStr("AWS/S3") {
        var bucket := Dimension(metric, "BucketName");
        if bucket.Some? && StartsWith(bucket.value, ctx.prefixes.s3) {
          var found := GetTagsFromName(bucket.value, "S3", ctx.s3);
          if found.Some? {
            tags := found.value;
          }
        }
      } else if namespace == JStr("AWS/ES") {
        var domain := Dimension(metric, "DomainName");
        if domain.Some? && StartsWith(domain.value, ctx.prefixes.domain) {
          tags := GetTagsFromArn(DomainArn(ctx, domain.value), ctx.es);
        }
      } else if namespace == JStr("AWS/RDS") {
        var db := Dimension(metric, "DBInstanceIdentifier");
        if db.Some? && StartsWith(db.value, ctx.prefixes.rds) {
          tags := GetTagsFromArn(DbArn(ctx, db.value), ctx.rds);
          if Get(metric, "metric_name") == JStr("FreeStorageSpace") {
            var size := GetRdsDescription(ctx.rds, db.value);
            tags := tags["db_size" := size];
          }
        }
      }
    }

    /** `process_metric`: sets `Tags` on the metric when tags were found. */
    method ProcessMetric(metric: Object, ctx: Context) returns (result: Option<Object>)
      requires Valid()
      modifies this
      ensures Valid()
      ensures Lookup(result, State()) == EnrichMetric(metric, ctx, old(State()))
    {
      if Get(metric, "namespace") !in ExpectedNamespaces {
        return None;
      }
      var tags := GetResourceTagsFromMetric(metric, ctx);
      if |tags| > 0 {
        var enriched := metric;
        enriched := enriched["Tags" := JObj(tags)];
        result := Some(enriched);
      } else {
        result := None;
      }
    }

    /** The body of the inner loop for one decoded line. */
    method HandleLine(v: Json, ctx: Context) returns (entries: seq<Object>, raised: bool)
      requires Valid()
      modifies this
      ensures Valid()
      ensures MetricLine(v, ctx, old(State())) == Step(entries, State(), raised)
    {
      entries, raised := [], true;
      if v.JObj? {
        var metric := v.fields;
        metric := metric - DefaultKeysToRemove;
        var result := ProcessMetric(metric, ctx);
        raised := false;
        if result.Some? {
          var m := result.value;
          if "dimensions" in m && m["dimensions"].JObj? {
            m := m["dimensions" := JObj(m["dimensions"].fields - {"ClientId"})];
            entries := [m];
          } else {
            raised := true;
          }
        }
      }
    }

    /** The inner loop over one record's lines. */
    method HandleLines(lines: seq<Option<Json>>, ctx: Context) returns (processed: seq<Object>, raised: bool)
      requires Valid()
      modifies this
      ensures Valid()
      ensures ProcessLines(lines, MetricStep(ctx), old(State())) == Lines(processed, State(), raised)
    {
      ghost var s0 := State();
      processed := [];
      raised := false;
      var j := 0;
      while j < |lines| && !raised
        invariant 0 <= j <= |lines| && Valid()
        invariant ProcessLines(lines[..j], MetricStep(ctx), s0) == Lines(processed, State(), raised)
      {
        assert lines[..j + 1][..j] == lines[..j];
        if lines[j].None? {
          raised := true;
        } else {
          var entries, lineRaised := HandleLine(lines[j].value, ctx);
          if lineRaised {
            raised := true;
          } else {
            processed := processed + entries;
          }
        }
        j := j + 1;
      }
      if raised {
        LinesRaisedSticks(lines, j, MetricStep(ctx), s0);
      } else {
        assert lines[..j] == lines;
      }
    }

    /** One iteration of the outer loop; `None` when it raised. */
    method HandleRecord(record: InputRecord, decode: Decoder, ctx: Context) returns (output: Option<OutputRecord>)
      requires Valid()
      modifies this
      ensures Valid()
      ensures ProcessRecord(record, decode, MetricStep(ctx), old(State())) == Handled(output, State())
    {
      output := None;
      if record.data.Some? && decode(record.data.value).Some? {
        var processed, raised := HandleLines(decode(record.data.value).value, ctx);
        if !raised && record.recordId.Some? {
          if processed != [] {
            output := Some(OutputRecord(record.recordId.value, Ok(processed)));
          } else {
            output := Some(OutputRecord(record.recordId.value, Dropped(record.data.value)));
          }
        }
      }
    }

    /** The loop of `lambda_handler` over the records, inside its `try`. */
    method HandleRecords(records: Option<seq<InputRecord>>, decode: Decoder, ctx: Context)
      returns (outputs: seq<OutputRecord>)
      requires Valid()
      modifies this
      ensures Valid()
      ensures var b := Transform(records, decode, MetricStep(ctx), old(State()));
              outputs == b.outputs && State() == b.state
    {
      outputs := [];
      if records.None? {
        return;
      }
      var rs := records.value;
      ghost var s0 := State();
      var i := 0;
      var raised := false;
      while i < |rs| && !raised
        invariant 0 <= i <= |rs| && Valid()
        invariant ProcessBatch(rs[..i], decode, MetricStep(ctx), s0) == Batch(outputs, State(), raised)
      {
        assert rs[..i + 1][..i] == rs[..i];
        var output := HandleRecord(rs[i], decode, ctx);
        if output.None? {
          raised := true;
        } else {
          outputs := outputs + [output.value];
        }
        i := i + 1;
      }
      if raised {
        BatchRaisedSticks(rs, i, decode, MetricStep(ctx), s0);
      } else {
        assert rs[..i] == rs;
      }
    }

    /** `lambda_handler`: the records as it returns them; the process keeps
        its caches for the next invocation. */
    method LambdaHandler(records: Option<seq<InputRecord>>, decode: Decoder, env: Option<string>,
                         region: Option<string>, accountId: Option<string>,
                         s3: Client, es: Client, rds: Client)
      returns (outputs: seq<OutputRecord>)
      requires Valid()
      modifies this
      ensures Valid()
      ensures var b := Transform(records, decode, MetricStep(HandlerContext(env, region, accountId, s3, es, rds)), old(State()));
              outputs == b.outputs && State() == b.state
    {
      outputs := HandleRecords(records, decode, HandlerContext(env, region, accountId, s3, es, rds));
    }
  }
}
