/** The subscription handler (lambda_functions/add_cloudwatch_subscrition.py):
    on the creation of a log group, subscribe the Firehose stream to it when
    it is the log group of one of this environment's RDS instances. */
module Subscription {
  import opened Wrappers
  import opened Json
  import opened Strings
  import Environment
  import Inventory
  import TransformLogs

  /** The parent path of every RDS instance's log groups. */
  const LogGroupBase: string := "/aws/rds/instance/"

  const FilterName: string := "firehose_for_opensearch"

  /** The arguments of one `put_subscription_filter` call. */
  datatype PutFilter = PutFilter(
    logGroupName: string,
    filterName: string,
    filterPattern: string,
    destinationArn: string,
    roleArn: string)

  /** Why the handler raises instead of returning. */
  datatype Failure =
    | MissingSetting(name: string)              // `os.environ[...]` raised `KeyError`
    | Misconfigured(error: Environment.ConfigError)
    | MalformedEvent                            // `.get` or `.startswith` on a value without it

  /** What an invocation comes to: a return code and the calls it made, or
      an exception. */
  datatype Outcome = Returned(code: int, calls: seq<PutFilter>) | Raised(failure: Failure)

  /** `event.get('detail', {}).get("requestParameters", {}).get("logGroupName")`;
      `None` when a `.get` is applied to something that is not an object. */
  function LogGroupName(event: Object): Option<Json> {
    match GetOr(event, "detail", JObj(map[]))
    case JObj(detail) =>
      (match GetOr(detail, "requestParameters", JObj(map[]))
       case JObj(params) => Some(Get(params, "logGroupName"))
       case _ => None)
    case _ => None
  }

  /** `lambda_handler`. The environment variables are parameters, and
      `succeeds` is the outcome `put_subscription_filter` has for a call:
      `false` for any exception, `ResourceAlreadyExistsException` included.
      When it returns, the code is 0 or 1, at most one call was made, and
      the code is 0 exactly when a call was made and succeeded. */
  function Handle(event: Object, firehoseArn: Option<string>, roleArn: Option<string>, env: Option<string>,
                  succeeds: PutFilter -> bool): (r: Outcome)
    ensures r.Returned? ==>
              && (r.code == 0 || r.code == 1)
              && |r.calls| <= 1
              && (r.code == 0 <==> |r.calls| == 1 && succeeds(r.calls[0]))
  {
    if firehoseArn.None? then Raised(MissingSetting("FIREHOSE_ARN"))
    else if roleArn.None? then Raised(MissingSetting("ROLE_ARN"))
    else match Environment.RdsPrefix(env)
      case Failure(e) => Raised(Misconfigured(e))
      case Success(prefix) =>
        match LogGroupName(event)
        case None => Raised(MalformedEvent)
        case Some(name) =>
          if !Truthy(name) then Returned(1, [])
          else if !name.JStr? then Raised(MalformedEvent)
          else if !StartsWith(name.s, LogGroupBase + prefix) then Returned(1, [])
          else
            var call := PutFilter(name.s, FilterName, "", firehoseArn.value, roleArn.value);
            Returned(if succeeds(call) then 0 else 1, [call])
  }

  /** The handler raises exactly when a setting is missing, the environment
      is not one of the three, or the event is not shaped as expected. */
  lemma Raises(event: Object, firehoseArn: Option<string>, roleArn: Option<string>, env: Option<string>,
               succeeds: PutFilter -> bool)
    ensures var r := Handle(event, firehoseArn, roleArn, env, succeeds);
      r.Raised? <==>
        || firehoseArn.None? || roleArn.None? || !(env.Some? && Environment.Known(env.value))
        || LogGroupName(event).None?
        || (Truthy(LogGroupName(event).value) && !LogGroupName(event).value.JStr?)
  {
    Environment.RdsPrefixTable(env);
  }

  /** The gate: with the settings in place, a call is made exactly for a log
      group under `/aws/rds/instance/` followed by the environment's prefix,
      and it is the one fixed subscription request for that log group. */
  lemma SubscriptionGate(event: Object, firehoseArn: string, roleArn: string, env: string,
                         succeeds: PutFilter -> bool)
    requires Environment.Known(env) && LogGroupName(event).Some?
    ensures var r := Handle(event, Some(firehoseArn), Some(roleArn), Some(env), succeeds);
            var name := LogGroupName(event).value;
            var prefix := Environment.RdsPrefix(Some(env)).value;
      && (r.Returned? && r.calls != [] <==> name.JStr? && StartsWith(name.s, LogGroupBase + prefix))
      && (r.Returned? && r.calls != [] ==>
            r.calls == [PutFilter(name.s, "firehose_for_opensearch", "", firehoseArn, roleArn)])
  {
    Environment.RdsPrefixTable(Some(env));
  }

  /** A missing `detail`, `requestParameters` or `logGroupName` reads as no
      log group: the handler returns 1 without a call. */
  lemma MissingLogGroup(event: Object, firehoseArn: string, roleArn: string, env: string,
                        succeeds: PutFilter -> bool)
    requires Environment.Known(env)
    requires || "detail" !in event
             || (event["detail"].JObj? && "requestParameters" !in event["detail"].fields)
             || (event["detail"].JObj? && event["detail"].fields["requestParameters"].JObj? &&
                 "logGroupName" !in event["detail"].fields["requestParameters"].fields)
    ensures Handle(event, Some(firehoseArn), Some(roleArn), Some(env), succeeds) == Returned(1, [])
  {
    Environment.RdsPrefixTable(Some(env));
  }

  /** The gate checks a string prefix, not a path segment: every name that
      extends `/aws/rds/instance/` + prefix is subscribed, whatever follows. */
  lemma NoDelimiterCheck(event: Object, firehoseArn: string, roleArn: string, env: string, tail: string,
                         succeeds: PutFilter -> bool)
    requires Environment.Known(env)
    requires LogGroupName(event) == Some(JStr(LogGroupBase + Environment.RdsPrefix(Some(env)).value + tail))
    ensures Handle(event, Some(firehoseArn), Some(roleArn), Some(env), succeeds).calls != []
  {
    Environment.RdsPrefixTable(Some(env));
    var prefix := Environment.RdsPrefix(Some(env)).value;
    var name := LogGroupBase + prefix + tail;
    assert name[..|LogGroupBase + prefix|] == LogGroupBase + prefix;
  }

  /** A subscribed log group names an instance of the environment as its
      fifth `/`-separated field, which is the field the log transformer
      reads and gates on the same prefix. */
  lemma {:induction false} SubscribedGroupFifthField(name: string, env: Option<string>)
    requires Environment.RdsPrefix(env).Success?
    requires StartsWith(name, LogGroupBase + Environment.RdsPrefix(env).value)
    ensures |Split(name, '/')| >= 5
    ensures StartsWith(Split(name, '/')[4], Environment.RdsPrefix(env).value)
  {
    var prefix := Environment.RdsPrefix(env).value;
    var rest := name[|LogGroupBase|..];
    assert name == LogGroupBase + rest by {
      assert name[..|LogGroupBase|] == (LogGroupBase + prefix)[..|LogGroupBase|] == LogGroupBase;
    }
    assert StartsWith(rest, prefix) by {
      assert rest[..|prefix|] == name[|LogGroupBase|..|LogGroupBase| + |prefix|];
      assert name[|LogGroupBase|..|LogGroupBase| + |prefix|] == (LogGroupBase + prefix)[|LogGroupBase|..];
    }
    var p1 := "instance" + ['/'] + rest;
    var p2 := "rds" + ['/'] + p1;
    var p3 := "aws" + ['/'] + p2;
    assert name == "" + ['/'] + p3;
    SplitAfterField("instance", '/', rest);
    SplitAfterField("rds", '/', p1);
    SplitAfterField("aws", '/', p2);
    SplitAfterField("", '/', p3);
    assert Split(name, '/') == ["", "aws", "rds", "instance"] + Split(rest, '/');
    SplitFirstFieldStartsWith(rest, '/', prefix);
  }

  /** The cross-file guarantee: a log message for a group this handler
      subscribed passes the log transformer's resource-name gate when that
      transformer runs in the same environment. */
  lemma SubscribedGroupPassesLogGate(logs: Object, env: Option<string>, region: Option<string>,
                                     accountId: Option<string>, rds: Inventory.Client)
    requires TransformLogs.Setup(env, region, accountId, rds).Some?
    requires "logGroup" in logs && logs["logGroup"].JStr?
    requires StartsWith(logs["logGroup"].s, LogGroupBase + Environment.RdsPrefix(env).value)
    ensures var ctx := TransformLogs.Setup(env, region, accountId, rds).value;
            var name := TransformLogs.ResourceName(JObj(logs));
      name.Some? && StartsWith(name.value, ctx.rdsPrefix)
  {
    SubscribedGroupFifthField(logs["logGroup"].s, env);
  }
}
