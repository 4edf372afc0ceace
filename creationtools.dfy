/** The record writers. Each `createX` turns a list of payload items into a
    single bulk write of upserts keyed by the fields its filter fixes;
    `createRawGuilds` flattens guild payloads into the seven nested lists,
    tagging each nested item with the keys that tie it to its guild, and then
    writes the eight lists in a fixed order. */
module CreationTools {
  import opened Schemas
  import opened DocumentStore
  import opened Mock

  // ---------------------------------------------------------------------
  // The writers

  /** The item fields each writer's filter fixes, besides the shard field. */
  function WriterKey(c: Coll): seq<string>
  {
    match c
    case Channel => ["id"]
    case Emoji => ["id"]
    case Guild => ["id"]
    case Member => ["guild_id", "user_id"]
    case Presence => ["cache_id", "user_id"]
    case Role => ["guild_id", "id"]
    case User => ["id"]
    case VoiceState => ["server_id", "user_id"]
  }

  /** Every field a writer's filter fixes. */
  function WriterFields(c: Coll): seq<string>
  {
    [ShardField] + WriterKey(c)
  }

  /** The filter of the upsert for `item`: the item's writer-key values
      (null where the item lacks the field) and the shard id. */
  function WriterFilter(c: Coll, item: Doc, s: int): (f: Filter)
    ensures forall k :: k in f <==> k in WriterFields(c)
    ensures forall k :: k in WriterKey(c) ==> f[k] == Get(item, k)
    ensures f[ShardField] == Num(s)
  {
    (map k | k in WriterKey(c) :: Get(item, k))[ShardField := Num(s)]
  }

  /** The upsert issued for one item: its writer filter, and the item with
      the shard id added as the update. */
  function WriteOf(c: Coll, item: Doc, s: int): Upsert
  {
    Upsert(WriterFilter(c, item, s), item[ShardField := Num(s)])
  }

  function Writes(c: Coll, items: seq<Doc>, s: int): (ws: seq<Upsert>)
    ensures |ws| == |items|
    ensures forall i :: 0 <= i < |items| ==> ws[i] == WriteOf(c, items[i], s)
  {
    seq(|items|, i requires 0 <= i < |items| => WriteOf(c, items[i], s))
  }

  /** What `createX(mock, items)` issues against collection `c`. */
  function CreateOps(ctx: Ctx, c: Coll, items: seq<Doc>): seq<Op>
  {
    if items != [] && c in ctx.models then [BulkWrite(c, Writes(c, items, ctx.shardId))] else []
  }

  /** The loop of every `createX`: one upsert per item, pushed in order, and
      a bulk write only if the list is non-empty and the model registered. */
  method CreateRecords(ctx: Ctx, c: Coll, items: seq<Doc>) returns (ops: seq<Op>)
    ensures ops == CreateOps(ctx, c, items)
  {
    ops := [];
    if |items| > 0 && c in ctx.models {
      var operations: seq<Upsert> := [];
      for i := 0 to |items|
        invariant |operations| == i
        invariant forall j :: 0 <= j < i ==> operations[j] == WriteOf(c, items[j], ctx.shardId)
      {
        operations := operations + [WriteOf(c, items[i], ctx.shardId)];
      }
      assert operations == Writes(c, items, ctx.shardId);
      if |operations| > 0 {
        ops := [BulkWrite(c, operations)];
      }
    }
  }

  /** No write at all for an empty list or an unregistered model; otherwise
      exactly one bulk write on `c` with one upsert per item, in item order,
      each filtering on exactly the writer's fields with the item's values
      and updating with the item plus the shard id. */
  lemma CreateOpsShape(ctx: Ctx, c: Coll, items: seq<Doc>)
    ensures CreateOps(ctx, c, items) == [] <==> items == [] || c !in ctx.models
    ensures |CreateOps(ctx, c, items)| <= 1
    ensures CreateOps(ctx, c, items) != [] ==>
      var op := CreateOps(ctx, c, items)[0];
      op.BulkWrite? && op.coll == c && |op.writes| == |items| &&
      forall i :: 0 <= i < |items| ==>
        (forall k :: k in op.writes[i].filter <==> k in WriterFields(c)) &&
        (forall k :: k in WriterKey(c) ==> op.writes[i].filter[k] == Get(items[i], k)) &&
        op.writes[i].filter[ShardField] == Num(ctx.shardId) &&
        op.writes[i].update == items[i][ShardField := Num(ctx.shardId)]
  {
  }

  /** The operation touches only this shard's records, only a registered
      collection, and cannot make two records agree on the writer's key. */
  ghost predicate WellFormed(op: Op, ctx: Ctx)
  {
    ScopedTo(op, ctx.shardId) && op.coll in ctx.models && KeyedBy(op, WriterFields(op.coll))
  }

  lemma WriteOfKeyed(c: Coll, item: Doc, s: int)
    ensures KeyedUpsert(WriteOf(c, item, s), WriterFields(c))
    ensures Consistent(WriteOf(c, item, s))
    ensures Get(WriteOf(c, item, s).filter, ShardField) == Num(s)
    ensures Get(WriteOf(c, item, s).update, ShardField) == Num(s)
  {
    var w := WriteOf(c, item, s);
    forall k | k in w.update && k in w.filter ensures w.update[k] == w.filter[k] {
      if k != ShardField {
        assert k in WriterKey(c);
      }
    }
  }

  /** Every write of a `createX` is well formed. */
  lemma CreateWellFormed(ctx: Ctx, c: Coll, items: seq<Doc>)
    ensures forall op :: op in CreateOps(ctx, c, items) ==> WellFormed(op, ctx) && op.coll == c
  {
    if items != [] && c in ctx.models {
      var ws := Writes(c, items, ctx.shardId);
      forall w | w in ws
        ensures KeyedUpsert(w, WriterFields(c))
        ensures Get(w.filter, ShardField) == Num(ctx.shardId) && Get(w.update, ShardField) == Num(ctx.shardId)
      {
        var i :| 0 <= i < |ws| && ws[i] == w;
        WriteOfKeyed(c, items[i], ctx.shardId);
      }
    }
  }

  /** Items `a` and `b` differ on some field of `c`'s writer key. */
  ghost predicate KeyDiffers(c: Coll, a: Doc, b: Doc)
  {
    exists k :: k in WriterKey(c) && Get(a, k) != Get(b, k)
  }

  /** The collection holds a record of shard `s` with the item's writer-key
      values that carries every field of the item. */
  ghost predicate Holds(docs: seq<Doc>, c: Coll, item: Doc, s: int)
  {
    Stored(docs, WriteOf(c, item, s))
  }

  /** After `createX`, every item whose key no later item repeats is held by
      the collection with all its fields; the last item for a key wins. */
  lemma CreateStores(st: Store, ctx: Ctx, c: Coll, items: seq<Doc>, i: nat)
    requires c in st && c in ctx.models && i < |items|
    requires forall j :: i < j < |items| ==> KeyDiffers(c, items[i], items[j])
    ensures c in Apply(st, CreateOps(ctx, c, items))
    ensures Holds(Apply(st, CreateOps(ctx, c, items))[c], c, items[i], ctx.shardId)
  {
    var s := ctx.shardId;
    var ws := Writes(c, items, s);
    forall j | i < j < |ws| ensures Disjoint(ws[i].filter, ws[j].filter) {
      assert j < |items| && KeyDiffers(c, items[i], items[j]);
      var k :| k in WriterKey(c) && Get(items[i], k) != Get(items[j], k);
      assert k in ws[i].filter && k in ws[j].filter;
    }
    WriteOfKeyed(c, items[i], s);
    UpsertAllStores(st[c], ws, i);
    assert Apply(st, CreateOps(ctx, c, items)) == Apply(ApplyOp(st, BulkWrite(c, ws)), []);
  }

  /** Writer keys and declared indexes: for every collection but Presence
      the writer's fields are among the index fields, so records unique on
      the writer's key satisfy the declared unique index. */
  lemma WriterKeyImpliesIndex(c: Coll, docs: seq<Doc>)
    requires c != Presence
    requires UniqueOn(docs, WriterFields(c))
    ensures IndexHolds(c, docs)
  {
    UniqueOnWider(docs, WriterFields(c), UniqueIndex(c));
  }

  /** The Presence writer keys on `cache_id` where the index has
      `guild_id`: two records can be unique on the writer's key and still
      collide on the declared index. */
  lemma PresenceWriterMissesIndex()
    ensures exists docs :: UniqueOn(docs, WriterFields(Presence)) && !IndexHolds(Presence, docs)
  {
    var a := map[ShardField := Num(0), "cache_id" := Str("1"), "user_id" := Str("9")];
    var b := map[ShardField := Num(0), "cache_id" := Str("2"), "user_id" := Str("9")];
    var docs := [a, b];
    assert Get(a, "cache_id") != Get(b, "cache_id");
    assert !Agree(a, b, WriterFields(Presence)) && !Agree(b, a, WriterFields(Presence));
    assert UniqueOn(docs, WriterFields(Presence));
    assert Get(a, "guild_id") == Null == Get(b, "guild_id");
    assert Agree(docs[0], docs[1], UniqueIndex(Presence));
  }

  // ---------------------------------------------------------------------
  // Raw guilds

  /** A payload object with a nested `user` object: a member or a presence. */
  datatype WithUser = WithUser(user: Doc, fields: Doc)

  /** A guild payload: its own fields and its nested arrays (an absent array
      reads as empty, which the flattening treats the same way). */
  datatype RawGuild = RawGuild(
    fields: Doc,
    channels: seq<Doc>,
    emojis: seq<Doc>,
    members: seq<WithUser>,
    presences: seq<WithUser>,
    roles: seq<Doc>,
    voiceStates: seq<Doc>)

  function GuildId(g: RawGuild): Value
  {
    Get(g.fields, "id")
  }

  function UserId(x: WithUser): Value
  {
    Get(x.user, "id")
  }

  /** A nested channel, emoji or role, tagged with its guild. */
  function TagGuild(gid: Value, d: Doc): Doc
  {
    d["guild_id" := gid]
  }

  /** A nested member: tagged with its guild and its user's id. */
  function TagMember(gid: Value, m: WithUser): Doc
  {
    m.fields["guild_id" := gid]["user_id" := UserId(m)]
  }

  /** A nested presence: cached under its guild's id, with its user's id. */
  function TagPresence(gid: Value, p: WithUser): Doc
  {
    p.fields["cache_id" := gid]["user_id" := UserId(p)]
  }

  /** A nested voice state: its guild is both its guild and its server. */
  function TagVoiceState(gid: Value, v: Doc): Doc
  {
    v["guild_id" := gid]["server_id" := gid]
  }

  /** The seven lists `createRawGuilds` fills. */
  datatype Part = Channels | Emojis | Members | Presences | Roles | Users | VoiceStates

  datatype Flat = Flat(
    channels: seq<Doc>,
    emojis: seq<Doc>,
    members: seq<Doc>,
    presences: seq<Doc>,
    roles: seq<Doc>,
    users: seq<Doc>,
    voiceStates: seq<Doc>)

  function Pick(f: Flat, p: Part): seq<Doc>
  {
    match p
    case Channels => f.channels
    case Emojis => f.emojis
    case Members => f.members
    case Presences => f.presences
    case Roles => f.roles
    case Users => f.users
    case VoiceStates => f.voiceStates
  }

  /** What one guild contributes to each list, tagged, in nested order. */
  function Nested(g: RawGuild, p: Part): seq<Doc>
  {
    var gid := GuildId(g);
    match p
    case Channels => seq(|g.channels|, i requires 0 <= i < |g.channels| => TagGuild(gid, g.channels[i]))
    case Emojis => seq(|g.emojis|, i requires 0 <= i < |g.emojis| => TagGuild(gid, g.emojis[i]))
    case Members => seq(|g.members|, i requires 0 <= i < |g.members| => TagMember(gid, g.members[i]))
    case Presences => seq(|g.presences|, i requires 0 <= i < |g.presences| => TagPresence(gid, g.presences[i]))
    case Roles => seq(|g.roles|, i requires 0 <= i < |g.roles| => TagGuild(gid, g.roles[i]))
    case Users => seq(|g.members|, i requires 0 <= i < |g.members| => g.members[i].user)
    case VoiceStates => seq(|g.voiceStates|, i requires 0 <= i < |g.voiceStates| => TagVoiceState(gid, g.voiceStates[i]))
  }

  function PartsOf(g: RawGuild): Flat
  {
    Flat(Nested(g, Channels), Nested(g, Emojis), Nested(g, Members), Nested(g, Presences),
         Nested(g, Roles), Nested(g, Users), Nested(g, VoiceStates))
  }

  function Join(a: Flat, b: Flat): Flat
  {
    Flat(a.channels + b.channels, a.emojis + b.emojis, a.members + b.members,
         a.presences + b.presences, a.roles + b.roles, a.users + b.users,
         a.voiceStates + b.voiceStates)
  }

  lemma PickJoin(a: Flat, b: Flat, p: Part)
    ensures Pick(Join(a, b), p) == Pick(a, p) + Pick(b, p)
  {
  }

  lemma JoinAssoc(x: Flat, y: Flat, z: Flat)
    ensures Join(Join(x, y), z) == Join(x, Join(y, z))
  {
    assert x.channels + y.channels + z.channels == x.channels + (y.channels + z.channels);
    assert x.emojis + y.emojis + z.emojis == x.emojis + (y.emojis + z.emojis);
    assert x.members + y.members + z.members == x.members + (y.members + z.members);
    assert x.presences + y.presences + z.presences == x.presences + (y.presences + z.presences);
    assert x.roles + y.roles + z.roles == x.roles + (y.roles + z.roles);
    assert x.users + y.users + z.users == x.users + (y.users + z.users);
    assert x.voiceStates + y.voiceStates + z.voiceStates == x.voiceStates + (y.voiceStates + z.voiceStates);
  }

  const NoParts: Flat := Flat([], [], [], [], [], [], [])

  /** The seven lists after the outer loop has visited `gs`. */
  function Flatten(gs: seq<RawGuild>): Flat
    decreases |gs|
  {
    if gs == [] then NoParts else Join(Flatten(gs[..|gs| - 1]), PartsOf(gs[|gs| - 1]))
  }

  /** The guild records: each guild payload's own fields. */
  function GuildDocs(gs: seq<RawGuild>): (r: seq<Doc>)
    ensures |r| == |gs| && forall i :: 0 <= i < |gs| ==> r[i] == gs[i].fields
  {
    seq(|gs|, i requires 0 <= i < |gs| => gs[i].fields)
  }

  /** The eight writes, in order, of the guild records and the seven lists. */
  function WriteAll(ctx: Ctx, guilds: seq<Doc>, f: Flat): seq<Op>
  {
    CreateOps(ctx, Guild, guilds) + CreateOps(ctx, Channel, f.channels) +
    CreateOps(ctx, Emoji, f.emojis) + CreateOps(ctx, Member, f.members) +
    CreateOps(ctx, Presence, f.presences) + CreateOps(ctx, Role, f.roles) +
    CreateOps(ctx, User, f.users) + CreateOps(ctx, VoiceState, f.voiceStates)
  }

  /** The writes of `createRawGuilds`. */
  function RawGuildsOps(ctx: Ctx, gs: seq<RawGuild>): seq<Op>
  {
    WriteAll(ctx, GuildDocs(gs), Flatten(gs))
  }

  /** The body of the outer loop of `createRawGuilds` for one guild: each of
      its nested arrays, tagged, pushed onto the matching list. */
  method AddGuild(acc: Flat, guild: RawGuild) returns (r: Flat)
    ensures r == Join(acc, PartsOf(guild))
  {
    var gid := GuildId(guild);
    ghost var parts := PartsOf(guild);
    var channels, emojis, members, presences, roles, users, voiceStates :=
      acc.channels, acc.emojis, acc.members, acc.presences, acc.roles, acc.users, acc.voiceStates;

    for j := 0 to |guild.channels|
      invariant channels == acc.channels + parts.channels[..j]
    {
      channels := channels + [TagGuild(gid, guild.channels[j])];
    }
    for j := 0 to |guild.emojis|
      invariant emojis == acc.emojis + parts.emojis[..j]
    {
      emojis := emojis + [TagGuild(gid, guild.emojis[j])];
    }
    for j := 0 to |guild.members|
      invariant members == acc.members + parts.members[..j]
      invariant users == acc.users + parts.users[..j]
    {
      members := members + [TagMember(gid, guild.members[j])];
      users := users + [guild.members[j].user];
    }
    for j := 0 to |guild.presences|
      invariant presences == acc.presences + parts.presences[..j]
    {
      presences := presences + [TagPresence(gid, guild.presences[j])];
    }
    for j := 0 to |guild.roles|
      invariant roles == acc.roles + parts.roles[..j]
    {
      roles := roles + [TagGuild(gid, guild.roles[j])];
    }
    for j := 0 to |guild.voiceStates|
      invariant voiceStates == acc.voiceStates + parts.voiceStates[..j]
    {
      voiceStates := voiceStates + [TagVoiceState(gid, guild.voiceStates[j])];
    }
    assert parts.channels[..|guild.channels|] == parts.channels;
    assert parts.emojis[..|guild.emojis|] == parts.emojis;
    assert parts.members[..|guild.members|] == parts.members;
    assert parts.users[..|guild.members|] == parts.users;
    assert parts.presences[..|guild.presences|] == parts.presences;
    assert parts.roles[..|guild.roles|] == parts.roles;
    assert parts.voiceStates[..|guild.voiceStates|] == parts.voiceStates;
    r := Flat(channels, emojis, members, presences, roles, users, voiceStates);
  }

  /** The nested loops of `createRawGuilds`: the seven lists it fills. */
  method FlattenGuilds(guilds: seq<RawGuild>) returns (f: Flat)
    ensures f == Flatten(guilds)
  {
    f := NoParts;
    for i := 0 to |guilds|
      invariant f == Flatten(guilds[..i])
    {
      assert guilds[..i + 1][..i] == guilds[..i];
      f := AddGuild(f, guilds[i]);
    }
    assert guilds[..|guilds|] == guilds;
  }

  /** `createRawGuilds`: flatten, then write the eight lists in order. */
  method CreateRawGuilds(ctx: Ctx, guilds: seq<RawGuild>) returns (ops: seq<Op>)
    ensures ops == RawGuildsOps(ctx, guilds)
  {
    var f := FlattenGuilds(guilds);
    var g := CreateRecords(ctx, Guild, GuildDocs(guilds));
    var c := CreateRecords(ctx, Channel, f.channels);
    var e := CreateRecords(ctx, Emoji, f.emojis);
    var m := CreateRecords(ctx, Member, f.members);
    var p := CreateRecords(ctx, Presence, f.presences);
    var r := CreateRecords(ctx, Role, f.roles);
    var u := CreateRecords(ctx, User, f.users);
    var v := CreateRecords(ctx, VoiceState, f.voiceStates);
    ops := g + c + e + m + p + r + u + v;
  }

  /** Flattening two runs of guilds one after the other: each list holds the
      first run's items followed by the second's. */
  lemma {:induction false} FlattenConcat(a: seq<RawGuild>, b: seq<RawGuild>)
    ensures Flatten(a + b) == Join(Flatten(a), Flatten(b))
    decreases |b|
  {
    if b == [] {
      assert a + b == a;
    } else {
      var init := b[..|b| - 1];
      var last := b[|b| - 1];
      FlattenConcat(a, init);
      assert (a + b)[..|a + b| - 1] == a + init;
      assert (a + b)[|a + b| - 1] == last;
      var x, y, z := Flatten(a), Flatten(init), PartsOf(last);
      assert Flatten(a + b) == Join(Join(x, y), z);
      assert Flatten(b) == Join(y, z);
      JoinAssoc(x, y, z);
    }
  }

  /** One guild on its own contributes exactly its tagged nested lists. */
  lemma FlattenOne(g: RawGuild)
    ensures Flatten([g]) == PartsOf(g)
  {
    assert [g][..0] == [];
  }

  /** Each list holds exactly the tagged nested items of the guilds. */
  lemma {:induction false} FlattenMembers(gs: seq<RawGuild>, p: Part, d: Doc)
    ensures d in Pick(Flatten(gs), p) <==> exists g :: g in gs && d in Nested(g, p)
    decreases |gs|
  {
    if gs != [] {
      var init := gs[..|gs| - 1];
      var last := gs[|gs| - 1];
      FlattenMembers(init, p, d);
      PickJoin(Flatten(init), PartsOf(last), p);
      assert Pick(PartsOf(last), p) == Nested(last, p);
      assert gs == init + [last];
      assert forall g :: g in gs <==> g in init || g == last;
    }
  }

  /** The total number of nested items of kind `p` over all the guilds. */
  function Total(gs: seq<RawGuild>, p: Part): nat
    decreases |gs|
  {
    if gs == [] then 0 else Total(gs[..|gs| - 1], p) + |Nested(gs[|gs| - 1], p)|
  }

  /** Each list is as long as the guilds' nested arrays together; the users
      list is exactly as long as the members list. */
  lemma {:induction false} FlattenLengths(gs: seq<RawGuild>)
    ensures forall p :: |Pick(Flatten(gs), p)| == Total(gs, p)
    ensures |Flatten(gs).users| == |Flatten(gs).members|
    decreases |gs|
  {
    if gs != [] {
      var init := gs[..|gs| - 1];
      var last := gs[|gs| - 1];
      FlattenLengths(init);
      forall p ensures |Pick(Flatten(gs), p)| == Total(gs, p) {
        PickJoin(Flatten(init), PartsOf(last), p);
        assert Pick(PartsOf(last), p) == Nested(last, p);
      }
    }
  }

  /** The i-th user is the i-th member's user: every flattened member carries
      the id of the user listed beside it. */
  lemma {:induction false} FlattenUsersMatchMembers(gs: seq<RawGuild>)
    ensures |Flatten(gs).users| == |Flatten(gs).members|
    ensures forall i :: 0 <= i < |Flatten(gs).members| ==>
      "user_id" in Flatten(gs).members[i] && Flatten(gs).members[i]["user_id"] == Get(Flatten(gs).users[i], "id")
    decreases |gs|
  {
    if gs != [] {
      var init := gs[..|gs| - 1];
      var last := gs[|gs| - 1];
      FlattenUsersMatchMembers(init);
      var f := Flatten(gs);
      var n := |Flatten(init).members|;
      forall i | 0 <= i < |f.members|
        ensures "user_id" in f.members[i] && f.members[i]["user_id"] == Get(f.users[i], "id")
      {
        if i >= n {
          var m := last.members[i - n];
          assert f.members[i] == TagMember(GuildId(last), m);
          assert f.users[i] == m.user;
        } else {
          assert f.members[i] == Flatten(init).members[i];
          assert f.users[i] == Flatten(init).users[i];
        }
      }
    }
  }

  /** The position of each collection in the write order of `createRawGuilds`. */
  function WriteRank(c: Coll): nat
  {
    match c
    case Guild => 0
    case Channel => 1
    case Emoji => 2
    case Member => 3
    case Presence => 4
    case Role => 5
    case User => 6
    case VoiceState => 7
  }

  /** The writes come in strictly increasing write rank, all below `k`. */
  ghost predicate RankedBelow(ops: seq<Op>, k: nat)
  {
    (forall i, j :: 0 <= i < j < |ops| ==> WriteRank(ops[i].coll) < WriteRank(ops[j].coll)) &&
    (forall op :: op in ops ==> WriteRank(op.coll) < k)
  }

  /** Appending a `createX` on a collection of rank `k` to writes ranked
      below `k` keeps them ranked. */
  lemma AppendRanked(ops: seq<Op>, ctx: Ctx, c: Coll, items: seq<Doc>)
    requires RankedBelow(ops, WriteRank(c))
    ensures RankedBelow(ops + CreateOps(ctx, c, items), WriteRank(c) + 1)
  {
    var w := CreateOps(ctx, c, items);
    CreateWellFormed(ctx, c, items);
    var r := ops + w;
    forall i, j | 0 <= i < j < |r| ensures WriteRank(r[i].coll) < WriteRank(r[j].coll) {
      if j < |ops| {
        assert r[i] == ops[i] && r[j] == ops[j];
      } else {
        assert r[i] == ops[i] && r[i] in ops && r[j] in w;
      }
    }
  }

  /** The writes come in the order guilds, channels, emojis, members,
      presences, roles, users, voice states: at most one per collection. */
  lemma RawGuildsOrder(ctx: Ctx, gs: seq<RawGuild>)
    ensures forall i, j :: 0 <= i < j < |RawGuildsOps(ctx, gs)| ==>
      WriteRank(RawGuildsOps(ctx, gs)[i].coll) < WriteRank(RawGuildsOps(ctx, gs)[j].coll)
  {
    WriteAllOrder(ctx, GuildDocs(gs), Flatten(gs));
  }

  lemma WriteAllOrder(ctx: Ctx, guilds: seq<Doc>, f: Flat)
    ensures RankedBelow(WriteAll(ctx, guilds, f), 8)
  {
    var o0 := CreateOps(ctx, Guild, guilds);
    AppendRanked([], ctx, Guild, guilds);
    assert [] + o0 == o0;
    var o3 := FirstWritesOrder(ctx, o0, f);
    LastWritesOrder(ctx, o3, f);
  }

  lemma FirstWritesOrder(ctx: Ctx, o0: seq<Op>, f: Flat) returns (o3: seq<Op>)
    requires RankedBelow(o0, 1)
    ensures o3 == o0 + CreateOps(ctx, Channel, f.channels) + CreateOps(ctx, Emoji, f.emojis) + CreateOps(ctx, Member, f.members)
    ensures RankedBelow(o3, 4)
  {
    var o1 := o0 + CreateOps(ctx, Channel, f.channels);
    AppendRanked(o0, ctx, Channel, f.channels);
    var o2 := o1 + CreateOps(ctx, Emoji, f.emojis);
    AppendRanked(o1, ctx, Emoji, f.emojis);
    o3 := o2 + CreateOps(ctx, Member, f.members);
    AppendRanked(o2, ctx, Member, f.members);
  }

  lemma LastWritesOrder(ctx: Ctx, o3: seq<Op>, f: Flat)
    requires RankedBelow(o3, 4)
    ensures RankedBelow(o3 + CreateOps(ctx, Presence, f.presences) + CreateOps(ctx, Role, f.roles) +
                        CreateOps(ctx, User, f.users) + CreateOps(ctx, VoiceState, f.voiceStates), 8)
  {
    var o4 := o3 + CreateOps(ctx, Presence, f.presences);
    AppendRanked(o3, ctx, Presence, f.presences);
    var o5 := o4 + CreateOps(ctx, Role, f.roles);
    AppendRanked(o4, ctx, Role, f.roles);
    var o6 := o5 + CreateOps(ctx, User, f.users);
    AppendRanked(o5, ctx, User, f.users);
    AppendRanked(o6, ctx, VoiceState, f.voiceStates);
  }

  /** Every write of `createRawGuilds` is well formed. */
  lemma RawGuildsWellFormed(ctx: Ctx, gs: seq<RawGuild>)
    ensures forall op :: op in RawGuildsOps(ctx, gs) ==> WellFormed(op, ctx)
  {
    var f := Flatten(gs);
    CreateWellFormed(ctx, Guild, GuildDocs(gs));
    CreateWellFormed(ctx, Channel, f.channels);
    CreateWellFormed(ctx, Emoji, f.emojis);
    CreateWellFormed(ctx, Member, f.members);
    CreateWellFormed(ctx, Presence, f.presences);
    CreateWellFormed(ctx, Role, f.roles);
    CreateWellFormed(ctx, User, f.users);
    CreateWellFormed(ctx, VoiceState, f.voiceStates);
  }
}
