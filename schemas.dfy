/** The persisted records of the proxy gateway: field values, record documents,
    the eight collections and the unique compound index declared for each. */
module Schemas {

  /** A scalar field value as it appears in a payload or a stored document. */
  datatype Value = Null | Bool(b: bool) | Num(n: int) | Str(s: string)

  /** A record: a document mapping field names to values. */
  type Doc = map<string, Value>

  /** The value of field `k`; a missing field reads as null (the document
      store matches `null` against missing fields as well). */
  function Get(d: Doc, k: string): Value
  {
    if k in d then d[k] else Null
  }

  /** JavaScript truthiness of a scalar value. */
  predicate Truthy(v: Value)
  {
    match v
    case Null => false
    case Bool(b) => b
    case Num(n) => n != 0
    case Str(s) => s != ""
  }

  /** The registered collections (mongoose models). */
  datatype Coll = Channel | Emoji | Guild | Member | Presence | Role | User | VoiceState

  /** The eight model names, in declaration order. */
  const ModelKeys: seq<Coll> := [Channel, Emoji, Guild, Member, Presence, Role, User, VoiceState]

  /** The field every record carries to tell shards apart. */
  const ShardField: string := "_shardId"

  /** The fields of each collection's unique compound index, in index order. */
  function UniqueIndex(c: Coll): seq<string>
  {
    match c
    case Channel => [ShardField, "id"]
    case Emoji => [ShardField, "guild_id", "id"]
    case Guild => [ShardField, "id"]
    case Member => [ShardField, "guild_id", "user_id"]
    case Presence => [ShardField, "guild_id", "user_id"]
    case Role => [ShardField, "guild_id", "id"]
    case User => [ShardField, "id"]
    case VoiceState => [ShardField, "server_id", "user_id"]
  }

  /** Two documents hold the same value for each of `fields`. */
  predicate Agree(a: Doc, b: Doc, fields: seq<string>)
  {
    forall k :: k in fields ==> Get(a, k) == Get(b, k)
  }

  /** No two documents (at different positions) agree on all of `fields`. */
  predicate UniqueOn(docs: seq<Doc>, fields: seq<string>)
  {
    forall i, j :: 0 <= i < |docs| && 0 <= j < |docs| && i != j ==> !Agree(docs[i], docs[j], fields)
  }

  /** A collection satisfies its declared unique index. */
  predicate IndexHolds(c: Coll, docs: seq<Doc>)
  {
    UniqueOn(docs, UniqueIndex(c))
  }

  /** Every collection is indexed by the shard field first, and the eight model
      names list every collection exactly once. */
  lemma IndexesLeadWithShard(c: Coll)
    ensures |UniqueIndex(c)| >= 2 && UniqueIndex(c)[0] == ShardField
    ensures c in ModelKeys
    ensures |ModelKeys| == 8
    ensures forall i, j :: 0 <= i < j < |ModelKeys| ==> ModelKeys[i] != ModelKeys[j]
  {
  }

  /** Uniqueness on a list of fields implies uniqueness on any list that
      contains them all. */
  lemma UniqueOnWider(docs: seq<Doc>, narrow: seq<string>, wide: seq<string>)
    requires UniqueOn(docs, narrow)
    requires forall k :: k in narrow ==> k in wide
    ensures UniqueOn(docs, wide)
  {
  }
}
