# Resource-tag enrichment of the AWS metrics and logs pre-processors

This project models the three AWS Lambda handlers of the metrics/logs
pre-processor in Dafny and proves properties of the model.

- `transform_lambda.py` enriches CloudWatch metric-stream records.
- `transform_cloudwatch_lambda.py` enriches CloudWatch Logs records.
- `add_cloudwatch_subscrition.py` subscribes the Firehose stream to new RDS
  log groups.

Both transformers are Firehose processors. Each decoded line names an RDS
instance, an OpenSearch domain or an S3 bucket. The line is enriched with
that resource's tags, looked up through the AWS SDK, but only when all of
these hold:

- the resource's name carries the deployment environment's prefix. When
  `ENVIRONMENT` is unset or unknown, the metrics handler checks only the
  bare bases `cg-aws-broker-`, `cg-` and `cg-broker-`;
- for RDS, the tag set carries `Organization GUID`, except for
  `FreeStorageSpace` metrics, which always get `db_size`.

## How the model is built

- **Shared loop.** `firehose.dfy` models the Firehose loop both
  transformers share, generically in the per-line step and the process
  state:
  - one output per input record, in order;
  - `Ok` with the entries, or `Dropped` echoing the data;
  - an exception ends the loop and returns the outputs built so far.
- **Caches.** Each memoised lookup (`functools.lru_cache(maxsize=256)`) is
  an explicit `Memo.Lru` value (`memo.dfy`). It holds the cached results,
  the recency order and the capacity bound.
- **Warm process.** The classes `TransformMetrics.MetricTransformer` and
  `TransformLogs.LogTransformer` hold the caches as fields, together with
  the requests sent to the clients. The lookup methods update those
  fields in straight-line code. `HandleLines`, `HandleRecords`,
  `ProcessLogs` and the logs `LambdaHandler` loop over the lines, records
  or events. Each method is proved equal to a pure function of the old
  state, and the lemmas are proved about those functions.
- **Clients.** SDK clients are oracles (`Inventory.Client`): a response or
  an error per request, plus an identity used in cache keys.
- **Prefixes.** The strict prefix derivation of the logs and subscription
  handlers is `Environment.RdsPrefix`. The lenient copy in the metrics
  handler is `TransformMetrics.MakePrefixes`.

Two results go beyond single calls:

- **Caches are transparent.** `CacheIsTransparent`, for both transformers,
  proves that on consistent caches a handler returns exactly what the same
  handler without caches returns. Caches are consistent when every entry
  fetched with this invocation's clients is what those clients answer.
  Every invocation builds new clients, so entries from earlier invocations
  never belong to them (`FreshClientsConsistent`).
- **Enrichment guarantees.** For every entry of every `Ok` record, these
  are proved:
  - the resource carries the environment's prefix;
  - RDS tags carry `Organization GUID`. For metrics other than
    `FreeStorageSpace` this assumes consistent caches and a region, account
    id and instance identifier without `/`. For log entries it assumes a
    consistent cache;
  - the bookkeeping keys and `dimensions.ClientId` are gone from metrics;
  - log entries keep exactly five keys.

  Conversely, a metrics record is `Ok` exactly when one of its lines is
  enriched.

Behaviours of the code worth knowing:

- **Unknown environments in the metrics handler.** It does not reject an
  unset or unknown `ENVIRONMENT`. `transform_lambda.py:79` builds a
  `RuntimeError` without raising it, so the bare bases `cg-aws-broker-`,
  `cg-` and `cg-broker-` are used.
- **Caught errors are cached.** Client errors are caught inside the
  memoised functions, so the `{}` they produce is cached. Only an S3 error
  other than `NoSuchTagSet` escapes, and it is not cached.
- **Ownership gate.** Only `:db:` ARNs are gated on `Organization GUID`.
  Domain and bucket tags are kept whole.
- **`FreeStorageSpace`.** These metrics of a prefixed instance are always
  enriched, because `db_size` is added even when the ownership gate
  returned `{}`.
- **Malformed lines and fields.**
  - A line that is not JSON stops the whole batch; the handler does not go
    on to the next record.
  - A metric without `metric_name` or `value` is not rejected.
- **Initialisation.** Only the logs handler has a guard that returns no
  records on a configuration error.

## Model

| member | source | states |
|---|---|---|
| `TransformMetrics.MakePrefixes` | lambda_functions/transform_lambda.py:76-100 | `make_prefixes` gives the (rds, s3, domain) prefixes of development, staging and production; the bare bases for an unset or unknown environment; agreement with the strict RDS derivation on the known environments |
| `TransformMetrics.PrefixIsolation` | lambda_functions/transform_lambda.py:81-100 | for each resource kind, no name starts with the prefixes of two different environments |
| `TransformMetrics.UnconfiguredGatesAdmitEveryEnvironment` | lambda_functions/transform_lambda.py:77-79 | with the environment unset or unknown, every RDS or domain name of any environment (and every production bucket) passes the gate |
| `TransformMetrics.GateStopsLookups` | lambda_functions/transform_lambda.py:154-177 | a metric whose identifying dimension is absent or lacks its kind's prefix yields `{}` with no request and no cache change, and `process_metric` gives `None` |
| `TransformMetrics.DimensionInObject` | lambda_functions/transform_lambda.py:157-168 | a dimension is read only from an object-valued `dimensions` |
| `TransformMetrics.LookupRequests` | lambda_functions/transform_lambda.py:158-174 | on a cache miss the first request is `get_bucket_tagging` for the bare bucket name, `list_tags` for `arn:aws-us-gov:es:{region}:{account}:domain/{name}`, or `list_tags_for_resource` for `arn:aws-us-gov:rds:{region}:{account}:db:{name}` |
| `TransformMetrics.EnrichMetricResult` | lambda_functions/transform_lambda.py:114-140 | `process_metric` returns a metric exactly when the namespace is expected and the tags are non-empty; it is the input metric with `Tags` set, and it passed the gate |
| `TransformMetrics.MetricLineEmits` | lambda_functions/transform_lambda.py:26-43 | a line yields at most one entry, and exactly one when it is an object that `process_metric` enriches; the entry is well formed (no `metric_stream_name`/`account_id`/`region`, expected namespace, gated resource, non-empty `Tags`, no `dimensions.ClientId`); a JSON-object line never raises |
| `TransformMetrics.HandlerEmits` | lambda_functions/transform_lambda.py:22-73 | every entry of every `Ok` record is well formed in that sense |
| `TransformMetrics.RecordOkIffEnriched` | lambda_functions/transform_lambda.py:23-69 | a record that gets an output is `Ok` exactly when one of its lines is enriched, in the state the earlier lines left |
| `TransformMetrics.HandlerOkIffEnriched` | lambda_functions/transform_lambda.py:22-73 | output `i` of the handler is `Ok` exactly when one of record `i`'s lines is enriched: every metric `process_metric` returns is appended |
| `TransformMetrics.HandlerAligned` | lambda_functions/transform_lambda.py:22-73 | at most one output per record, in order; all records answered unless an exception stopped the loop; output `i` is what record `i` yields |
| `TransformMetrics.MemoArnTagsRepeat` | lambda_functions/transform_lambda.py:201-218 | a repeated ARN lookup answers the same with no new request, including a `{}` from a caught error |
| `TransformMetrics.MemoBucketTagsRepeat` | lambda_functions/transform_lambda.py:189-198 | a repeated bucket lookup is served from the cache when the first returned, and asks again when the first raised |
| `TransformMetrics.MemoDbSizeRepeat` | lambda_functions/transform_lambda.py:180-186 | a repeated storage lookup answers the same with no new request |
| `TransformMetrics.FreshClientsConsistent` | lambda_functions/transform_lambda.py:19-21 | caches holding no entry of this invocation's new clients are consistent with them |
| `TransformMetrics.MemoArnTagsTransparent` | lambda_functions/transform_lambda.py:201-218 | on a consistent cache the memoised ARN lookup answers what the client answers, and both ARN clients' entries stay consistent |
| `TransformMetrics.MemoBucketTagsTransparent` | lambda_functions/transform_lambda.py:189-198 | the memoised bucket lookup, with an escaping error read as `{}`, answers what the uncached lookup does |
| `TransformMetrics.MemoDbSizeTransparent` | lambda_functions/transform_lambda.py:180-186 | the memoised storage lookup answers what the client answers |
| `TransformMetrics.MetricTagsTransparent` | lambda_functions/transform_lambda.py:143-177 | the cached `get_resource_tags_from_metric` equals the uncached one and keeps the caches consistent |
| `TransformMetrics.MetricStepSimulates` | lambda_functions/transform_lambda.py:26-43 | the cached line step yields the uncached step's entries and exceptions |
| `TransformMetrics.CacheIsTransparent` | lambda_functions/transform_lambda.py:14-73 | on consistent caches `lambda_handler` returns exactly the records of the handler without caches, and the caches stay consistent |
| `TransformMetrics.DbArnKind` | lambda_functions/transform_lambda.py:170 | an instance ARN is a `:db:` ARN and, with `/`-free parts, not a `:domain/` one |
| `TransformMetrics.RdsTagsOwned` | lambda_functions/transform_lambda.py:201-218 | the tags found for an RDS metric other than `FreeStorageSpace` are empty or carry `Organization GUID` |
| `TransformMetrics.DomainTagsWhole` | lambda_functions/transform_lambda.py:162-166 | a prefixed domain gets its whole tag list with no ownership check, or `{}` when `list_tags` fails |
| `TransformMetrics.BucketTagsWhole` | lambda_functions/transform_lambda.py:158-161 | a prefixed bucket gets its whole tag list with no ownership check, or `{}` when `get_bucket_tagging` fails |
| `TransformMetrics.FreeStorageSpaceEnriched` | lambda_functions/transform_lambda.py:171-174 | a gated `FreeStorageSpace` metric always gets non-empty tags whose `db_size` is the allocated storage |
| `TransformMetrics.FreeStorageSpaceCopiesTags` | lambda_functions/transform_lambda.py:171-174 | the `FreeStorageSpace` tags are the cached ARN tags plus `db_size`, while the cache keeps the ARN tags without it |
| `TransformMetrics.PopClientIdKeepsIdentity` | lambda_functions/transform_lambda.py:40-42 | setting `Tags` and popping `dimensions.ClientId` keeps the namespace, metric name and resource name |
| `TransformMetrics.PlainLineOwned` | lambda_functions/transform_lambda.py:26-43 | an entry keeps its namespace, metric name and instance, so the ownership gate carries over to it |
| `TransformMetrics.HandlerEmitsOwnedRdsTags` | lambda_functions/transform_lambda.py:22-73 | on consistent caches every emitted RDS entry other than `FreeStorageSpace` carries `Organization GUID` |
| `TransformMetrics.MetricTransformer.constructor` | lambda_functions/transform_lambda.py:180-201 | a cold process: three empty caches, no requests |
| `TransformMetrics.MetricTransformer.GetTagsFromArn` | lambda_functions/transform_lambda.py:201-218 | the cached `get_tags_from_arn`: a hit answers from the cache and refreshes recency; a miss looks up, records its requests and stores the result |
| `TransformMetrics.MetricTransformer.GetTagsFromName` | lambda_functions/transform_lambda.py:189-198 | the cached `get_tags_from_name`; an escaping error stores nothing |
| `TransformMetrics.MetricTransformer.GetRdsDescription` | lambda_functions/transform_lambda.py:180-186 | the cached `get_rds_description`; a caught error stores `None` |
| `TransformMetrics.MetricTransformer.GetResourceTagsFromMetric` | lambda_functions/transform_lambda.py:143-177 | `get_resource_tags_from_metric` on the process's caches |
| `TransformMetrics.MetricTransformer.ProcessMetric` | lambda_functions/transform_lambda.py:103-140 | `process_metric` on the process's caches |
| `TransformMetrics.MetricTransformer.HandleLine` | lambda_functions/transform_lambda.py:27-43 | one line: drop the bookkeeping keys, enrich, pop `dimensions.ClientId` |
| `TransformMetrics.MetricTransformer.HandleLines` | lambda_functions/transform_lambda.py:25-44 | the inner loop, stopping at the first exception |
| `TransformMetrics.MetricTransformer.HandleRecord` | lambda_functions/transform_lambda.py:23-70 | one record: `Ok` with its entries or `Dropped` with its data; `None` when it raised |
| `TransformMetrics.MetricTransformer.HandleRecords` | lambda_functions/transform_lambda.py:22-73 | the outer loop, stopping at the first exception |
| `TransformMetrics.MetricTransformer.LambdaHandler` | lambda_functions/transform_lambda.py:14-73 | `lambda_handler` with the lenient prefixes, on the process's caches |
| `Environment.RdsPrefix` | lambda_functions/transform_cloudwatch_lambda.py:73-89 | `make_prefixes` derives a prefix exactly for development, staging and production; every prefix extends `cg-aws-broker-` and holds no `/` |
| `Environment.RdsPrefixTable` | lambda_functions/transform_cloudwatch_lambda.py:73-89 | each of the three environments gets its own prefix; unset or empty gives "required", anything else "invalid" |
| `TransformLogs.Setup` | lambda_functions/transform_cloudwatch_lambda.py:18-29 | initialisation succeeds exactly for a known environment and a non-empty `ACCOUNT_ID`, and then holds that environment's prefix and the settings read |
| `TransformLogs.InitFailureReturnsNothing` | lambda_functions/transform_cloudwatch_lambda.py:18-29 | a failed initialisation returns no records and touches neither cache nor client |
| `TransformLogs.ArnTagsOwned` | lambda_functions/transform_cloudwatch_lambda.py:133-144 | the tags are empty or carry `Organization GUID`; non-empty tags are the instance's whole tag map |
| `TransformLogs.ResourceTagsGate` | lambda_functions/transform_cloudwatch_lambda.py:120-130 | a name without the prefix gives `{}` with no lookup; with it, a miss sends one `list_tags_for_resource` for `arn:aws-us-gov:rds:{region}:{account}:db:{name}` |
| `TransformLogs.MemoArnTagsRepeat` | lambda_functions/transform_cloudwatch_lambda.py:133-144 | a repeated lookup answers the same with no new request |
| `TransformLogs.EventEntriesShape` | lambda_functions/transform_cloudwatch_lambda.py:101-110 | one entry per log event, in order, each with exactly `logGroup`, `logStream`, `message`, `timestamp`, `Tags`; failure exactly when an event lacks a field |
| `TransformLogs.EventsFailureSticks` | lambda_functions/transform_cloudwatch_lambda.py:102-117 | one failing event makes the whole `process_logs` answer `None` |
| `TransformLogs.ProcessedLogsShape` | lambda_functions/transform_cloudwatch_lambda.py:92-117 | `process_logs` answers a list only for a nameable resource with non-empty tags, and every entry has exactly the five keys |
| `TransformLogs.ShortLogGroup` | lambda_functions/transform_cloudwatch_lambda.py:95 | a log group with fewer than five `/`-fields gives `None` with no lookup |
| `TransformLogs.HandlerAligned` | lambda_functions/transform_cloudwatch_lambda.py:31-70 | at most one output per record, in order, output `i` being what record `i` yields |
| `TransformLogs.FreshClientConsistent` | lambda_functions/transform_cloudwatch_lambda.py:25 | a cache holding no entry of this invocation's new client is consistent with it |
| `TransformLogs.MemoArnTagsTransparent` | lambda_functions/transform_cloudwatch_lambda.py:133-144 | on a consistent cache the memoised lookup answers what the client answers |
| `TransformLogs.LogStepSimulates` | lambda_functions/transform_cloudwatch_lambda.py:35-41 | the cached line step yields the uncached step's entries |
| `TransformLogs.CacheIsTransparent` | lambda_functions/transform_cloudwatch_lambda.py:31-70 | on a consistent cache the handler returns exactly the records of the handler without a cache |
| `TransformLogs.PlainLogLineEntries` | lambda_functions/transform_cloudwatch_lambda.py:92-117 | every entry has exactly the five keys, a log group whose fifth field carries the prefix, and tags carrying `Organization GUID` |
| `TransformLogs.HandlerEmitsOwnedEntries` | lambda_functions/transform_cloudwatch_lambda.py:31-70 | on a consistent cache every entry of every `Ok` record has exactly the five keys, a log group of a prefixed instance and owned tags |
| `TransformLogs.LogTransformer.constructor` | lambda_functions/transform_cloudwatch_lambda.py:133 | a cold process: an empty cache, no requests |
| `TransformLogs.LogTransformer.GetTagsFromArn` | lambda_functions/transform_cloudwatch_lambda.py:133-144 | the cached `get_tags_from_arn` |
| `TransformLogs.LogTransformer.GetResourceTagsFromLog` | lambda_functions/transform_cloudwatch_lambda.py:120-130 | `get_resource_tags_from_log` on the process's cache |
| `TransformLogs.CollectEntries` | lambda_functions/transform_cloudwatch_lambda.py:101-110 | the loop over `logEvents` builds exactly the event entries, or `None` when an event lacks a field |
| `TransformLogs.LogTransformer.ProcessLogs` | lambda_functions/transform_cloudwatch_lambda.py:92-117 | `process_logs`, building the entries event by event |
| `TransformLogs.LogTransformer.HandleLine` | lambda_functions/transform_cloudwatch_lambda.py:36-41 | one line: the entries of `process_logs`, none for `None` or `[]` |
| `TransformLogs.LogTransformer.HandleLines` | lambda_functions/transform_cloudwatch_lambda.py:34-41 | the inner loop, stopping at the first exception |
| `TransformLogs.LogTransformer.HandleRecord` | lambda_functions/transform_cloudwatch_lambda.py:32-66 | one record: `Ok` with its entries or `Dropped` with its data |
| `TransformLogs.LogTransformer.LambdaHandler` | lambda_functions/transform_cloudwatch_lambda.py:13-70 | `lambda_handler`: the initialisation guard, then the loop over the records |
| `Subscription.Handle` | lambda_functions/add_cloudwatch_subscrition.py:9-39 | `lambda_handler` returns 0 or 1, makes at most one call, and returns 0 exactly when its one call succeeded |
| `Subscription.Raises` | lambda_functions/add_cloudwatch_subscrition.py:9-18 | it raises exactly for a missing `FIREHOSE_ARN` or `ROLE_ARN`, an unknown environment, a non-object `detail` or `requestParameters`, or a truthy non-string log group |
| `Subscription.SubscriptionGate` | lambda_functions/add_cloudwatch_subscrition.py:18-28 | a call is made exactly for a log group starting with `/aws/rds/instance/` + prefix, and it is the one fixed `put_subscription_filter` request |
| `Subscription.MissingLogGroup` | lambda_functions/add_cloudwatch_subscrition.py:14-18 | a missing `detail`, `requestParameters` or `logGroupName` returns 1 with no call |
| `Subscription.NoDelimiterCheck` | lambda_functions/add_cloudwatch_subscrition.py:18 | any name extending `/aws/rds/instance/` + prefix is subscribed, whatever follows |
| `Subscription.SubscribedGroupFifthField` | lambda_functions/add_cloudwatch_subscrition.py:18 | a subscribed log group has at least five `/`-fields and its fifth starts with the prefix |
| `Subscription.SubscribedGroupPassesLogGate` | lambda_functions/transform_cloudwatch_lambda.py:95-125 | a message from a subscribed log group passes the log transformer's gate in the same environment |
| `Firehose.LinesRaisedSticks` | lambda_functions/transform_lambda.py:22-27 | after a line raised, the remaining lines change nothing |
| `Firehose.BatchRaisedSticks` | lambda_functions/transform_lambda.py:22-73 | after a record raised, the remaining records change nothing |
| `Firehose.LinesEntriesFromSteps` | lambda_functions/transform_lambda.py:26-43 | lines that ran without an exception have entries exactly when one line's step contributed some |
| `Firehose.BatchAligned` | lambda_functions/transform_lambda.py:22-73 | at most one output per record, in order; all answered unless an exception stopped the loop, and then the next record is the one that raised |
| `Firehose.LinesEnsure` | lambda_functions/transform_lambda.py:26-43 | what every step guarantees of its entries holds of a record's entries |
| `Firehose.BatchEnsures` | lambda_functions/transform_lambda.py:22-73 | what every step guarantees of its entries holds of every `Ok` entry |
| `Firehose.LinesSimulate` | lambda_functions/transform_lambda.py:26-43 | a step that behaves like a stateless one on invariant states gives the same entries |
| `Firehose.BatchSimulate` | lambda_functions/transform_lambda.py:22-73 | such a step gives the same outputs over a whole batch |
| `Memo.Empty` | lambda_functions/transform_lambda.py:180 | a fresh cache is valid and empty |
| `Memo.WithoutSplice` | lambda_functions/transform_lambda.py:180 | taking a key out of the recency order keeps the keys before and after it, each in order |
| `Memo.Touch` | lambda_functions/transform_lambda.py:180 | a hit keeps every result, makes the key the most recently used, and never grows the recency order |
| `Memo.TouchKeeps` | lambda_functions/transform_lambda.py:180 | a hit keeps every result and the invariant, and makes the key the most recently used |
| `Memo.TouchMovesToBack` | lambda_functions/transform_lambda.py:180 | a hit moves the key to the end and keeps the others' recency order, so the least recently used key stays first unless it was hit |
| `Memo.Store` | lambda_functions/transform_lambda.py:180 | a miss stores its result, adds no key but its own, and never takes the cache over its capacity |
| `Memo.StoreKeeps` | lambda_functions/transform_lambda.py:180 | a stored result is found again and becomes the most recently used; when full, exactly the least recently used entry is evicted |
| `Memo.TouchAgrees` | lambda_functions/transform_lambda.py:201 | a hit on a consistent cache answers what the function computes |
| `Memo.StoreAgrees` | lambda_functions/transform_lambda.py:201 | storing what the function computes keeps the cache consistent |
| `Memo.EntriesBounded` | lambda_functions/transform_lambda.py:180 | a valid cache never holds more than 256 results |
| `Inventory.ToMap` | lambda_functions/transform_lambda.py:207 | every entry of the dict comprehension is a string value paired with its key in the tag list, and there are at most as many entries as tags |
| `Inventory.ToMapKeys` | lambda_functions/transform_lambda.py:207 | the dict comprehension has exactly the keys of the tag list |
| `Inventory.ToMapLastWins` | lambda_functions/transform_lambda.py:207 | the last occurrence of a key gives its value |
| `Strings.Split` | lambda_functions/transform_cloudwatch_lambda.py:95 | `str.split` never answers an empty list |
| `Strings.ContainsAt` | lambda_functions/transform_lambda.py:204 | `sub in s` holds exactly when `sub` occurs at some position |
| `Strings.SplitFieldsHaveNoSeparator` | lambda_functions/transform_cloudwatch_lambda.py:95 | no field of a split holds the separator |
| `Strings.SplitAfterField` | lambda_functions/transform_cloudwatch_lambda.py:95 | text before the first separator is the first field, the rest is split on its own |
| `Strings.SplitFirstFieldStartsWith` | lambda_functions/transform_cloudwatch_lambda.py:95 | the first field starts with every separator-free prefix of the text |

## Left out

- Base64, gzip, `strip().splitlines()` and JSON decoding: they are a `Firehose.Decoder` parameter, which yields the parsed lines or a failure.
- Encoding an `Ok` record's entries as newline-delimited JSON in base64: the output carries the entries themselves.
- The AWS SDK: clients are oracles with a fixed answer per request, so tag sets do not change during a run. Building a client is not modelled, and neither is a failure to build one.
- `os.environ`, `os.getenv` and `boto3.Session().region_name`: their values are parameters.
- Logging: it has no effect on results.
- Floating-point metric values and the allocated storage: they are opaque JSON values. `Json.JNum` holds integers only.
- Dictionary key order and `json.dumps` formatting: objects are maps.
- Aliasing of the cached tag dictionaries:
  - the S3 and OpenSearch branches of the metrics handler hand the cached dict itself to the metric;
  - every log entry's `Tags` is the cached dict itself;
  - only the RDS branch of the metrics handler copies it (`transform_lambda.py:171`);
  - nothing mutates a shared dict later, so value semantics give the same results.
- The metric dict updated in place by `pop` and `metric["Tags"] = ...`: each update is modelled as a new map.
- Concurrent invocations: the runtime runs one invocation at a time per process.
- The subscription handler's event: it is taken to be a JSON object, which is what the Lambda runtime passes.
- `ResourceAlreadyExistsException` versus other errors of `put_subscription_filter`: both return 1, so the oracle answers only success or failure.
- The test files: they are out of date with the code and are not used as ground truth.
- TransformMetrics.RdsTagsOwned: proved only when the region, the account id and the instance identifier hold no `/`. AWS identifiers never do. With a `/` the instance ARN could also contain `:domain/`, and a caught RDS error would then keep the domain lookup's tags.
- TransformMetrics.DomainTagsWhole: covers only domain ARNs without `:db:`. A region or account id holding `:db:` would also send `list_tags_for_resource` to the OpenSearch client.
- TransformMetrics.HandlerEmitsOwnedRdsTags: same restriction as `RdsTagsOwned`, on which it rests.
- TransformMetrics.LookupRequests: its RDS part carries the same restriction.
- TransformMetrics.CacheIsTransparent: assumes consistent caches. `FreshClientsConsistent` shows the caches are consistent whenever the clients are new, and each invocation builds new ones.
- TransformLogs.CacheIsTransparent: the same assumption, established by `FreshClientConsistent`.
