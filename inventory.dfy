/** The inventory service as the handlers see it through the AWS SDK: tag
    lists, the clients that return them (oracles: a response per request),
    and the requests a process sends, recorded so that "no lookup was made"
    can be stated. */
module Inventory {
  import opened Wrappers
  import opened Json

  /** One `{"Key": ..., "Value": ...}` element of a tag list. */
  datatype Tag = Tag(key: string, value: string)

  /** The tag dictionary attached to an enriched entry. Inventory tags are
      strings; the RDS size lookup adds a `db_size` holding any JSON value. */
  type TagMap = map<string, Json>

  /** The ownership marker whose absence makes an RDS lookup return `{}`. */
  const OwnershipKey: string := "Organization GUID"

  /** The SDK exceptions the handlers tell apart: S3's `NoSuchTagSet`, and
      everything else (not found, access denied, throttling, a missing
      operation on the wrong kind of client, a malformed response). */
  datatype ClientError = NoSuchTagSet | OtherError

  datatype Operation = ListTags | ListTagsForResource | GetBucketTagging | DescribeDbInstances

  /** Clients are hashed by identity in the memoisation key. */
  type ClientId = nat

  /** A boto3 client as an oracle: `tagging(op, target)` is the tag list the
      call `op` returns for `target` (a response without a tag list counts as
      the empty list), `storage(db)` the `AllocatedStorage` of the first
      instance `describe_db_instances` reports. */
  datatype Client = Client(
    id: ClientId,
    tagging: (Operation, string) -> Result<seq<Tag>, ClientError>,
    storage: string -> Result<Json, ClientError>)

  /** One request sent to a client. */
  datatype Request = Request(client: ClientId, op: Operation, target: string)

  /** `{tag["Key"]: tag["Value"] for tag in tags}`: later duplicates
      overwrite earlier ones. */
  function ToMap(tags: seq<Tag>): (m: TagMap)
    ensures forall k :: k in m ==> m[k].JStr? && Tag(k, m[k].s) in tags
    ensures |m| <= |tags|
    decreases |tags|
  {
    if tags == [] then map[]
    else
      var last := tags[|tags| - 1];
      ToMap(tags[..|tags| - 1])[last.key := JStr(last.value)]
  }

  /** The dictionary has exactly the keys of the list. */
  lemma {:induction false} ToMapKeys(tags: seq<Tag>)
    ensures forall k :: k in ToMap(tags) <==> exists i :: 0 <= i < |tags| && tags[i].key == k
    decreases |tags|
  {
    if tags != [] {
      var init := tags[..|tags| - 1];
      ToMapKeys(init);
      forall k | k in ToMap(tags) ensures exists i :: 0 <= i < |tags| && tags[i].key == k {
        if k != tags[|tags| - 1].key {
          assert ToMap(tags) == ToMap(init)[tags[|tags| - 1].key := JStr(tags[|tags| - 1].value)];
          assert k in ToMap(init);
          var i :| 0 <= i < |init| && init[i].key == k;
          assert tags[i].key == k;
        }
      }
      forall k | exists i :: 0 <= i < |tags| && tags[i].key == k ensures k in ToMap(tags) {
        var i :| 0 <= i < |tags| && tags[i].key == k;
        if i < |tags| - 1 {
          assert init[i].key == k;
        }
      }
    }
  }

  /** Each key maps to the value of its last occurrence in the list. */
  lemma {:induction false} ToMapLastWins(tags: seq<Tag>, i: nat)
    requires i < |tags|
    requires forall j :: i < j < |tags| ==> tags[j].key != tags[i].key
    ensures tags[i].key in ToMap(tags) && ToMap(tags)[tags[i].key] == JStr(tags[i].value)
    decreases |tags|
  {
    if i < |tags| - 1 {
      var init := tags[..|tags| - 1];
      forall j | i < j < |init| ensures init[j].key != init[i].key {
        assert init[j] == tags[j];
      }
      ToMapLastWins(init, i);
    }
  }

  /** How an f-string prints an optional setting: Python's `None` prints as
      `None`. */
  function Show(setting: Option<string>): string
  {
    match setting
    case Some(s) => s
    case None => "None"
  }
}
