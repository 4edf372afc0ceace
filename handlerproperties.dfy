/** What the gateway handler's reductions guarantee about the store. */
module HandlerProperties {
  import opened Wrappers
  import opened Schemas
  import opened DocumentStore
  import opened Mock
  import opened CreationTools
  import opened GatewayHandler

  // ---------------------------------------------------------------------
  // Filtering

  /** Non-dispatch packets, disabled event names and events without a
      handler issue nothing; every other packet issues its event's
      operations. */
  lemma PacketFilter(h: Handler, ctx: Ctx, p: Packet)
    ensures p.op != DispatchOp ==> OnPacket(h, ctx, p) == []
    ensures Name(p.event) in h.disabledEvents ==> OnPacket(h, ctx, p) == []
    ensures p.event.Unknown? ==> OnPacket(h, ctx, p) == []
    ensures Parsed(p.event) && Name(p.event) !in HandledNames ==> OnPacket(h, ctx, p) == []
    ensures p.op == DispatchOp && Name(p.event) !in h.disabledEvents ==> OnPacket(h, ctx, p) == Dispatch(ctx, p.event)
  {
  }

  /** A disabled option, in any letter case, silences that event. */
  lemma DisabledEventIgnored(opts: Options, ctx: Ctx, p: Packet, v: string)
    requires v in opts.disabledEvents && UpperCase(v) == Name(p.event)
    ensures OnPacket(NewHandler(opts), ctx, p) == []
  {
  }

  // ---------------------------------------------------------------------
  // Every operation is scoped, registered and keyed

  lemma ReadyWellFormed(ctx: Ctx, e: Event)
    requires e.Ready?
    ensures forall op :: op in Dispatch(ctx, e) ==> WellFormed(op, ctx)
  {
    ResetScoped(ctx);
    CreateWellFormed(ctx, User, [e.user]);
    CreateWellFormed(ctx, Channel, e.privateChannels);
    RawGuildsWellFormed(ctx, e.guilds);
    CreateWellFormed(ctx, Presence, TagAll("cache_id", Str(SelfCache), e.presences));
  }

  lemma PresenceWellFormed(ctx: Ctx, user: Doc, presence: Doc)
    ensures forall op :: op in PresenceOps(ctx, user, presence) ==> WellFormed(op, ctx)
  {
    CreateWellFormed(ctx, User, [user]);
    CreateWellFormed(ctx, Presence, [PresenceDoc(user, presence)]);
    CreateWellFormed(ctx, Member, [PresenceMemberDoc(user, presence)]);
  }

  lemma ChunkWellFormed(ctx: Ctx, e: Event)
    requires e.GuildMembersChunk?
    ensures forall op :: op in Dispatch(ctx, e) ==> WellFormed(op, ctx)
  {
    CreateWellFormed(ctx, User, UsersOf(e.members));
    CreateWellFormed(ctx, Member, TagAll("guild_id", e.guildId, FieldsOf(e.members)));
    CreateWellFormed(ctx, Presence, TagAll("guild_id", e.guildId, e.presences));
  }

  lemma MemberAddWellFormed(ctx: Ctx, added: WithUser)
    ensures forall op :: op in Dispatch(ctx, GuildMemberAdd(added)) ==> WellFormed(op, ctx)
  {
    CreateWellFormed(ctx, User, [added.user]);
    CreateWellFormed(ctx, Member, [MemberDoc(added)]);
  }

  lemma MemberUpdateWellFormed(ctx: Ctx, updated: WithUser)
    ensures forall op :: op in Dispatch(ctx, GuildMemberUpdate(updated)) ==> WellFormed(op, ctx)
  {
    CreateWellFormed(ctx, User, [updated.user]);
    CreateWellFormed(ctx, Member, [MemberDoc(updated)]);
  }

  lemma TypingWellFormed(ctx: Ctx, guildId: Value, member: Option<WithUser>)
    ensures forall op :: op in Dispatch(ctx, TypingStart(guildId, member)) ==> WellFormed(op, ctx)
  {
    if member.Some? {
      var m := member.value;
      CreateWellFormed(ctx, User, [m.user]);
      CreateWellFormed(ctx, Member, [m.fields["guild_id" := guildId]["user_id" := UserId(m)]]);
    }
  }

  lemma VoiceWellFormed(ctx: Ctx, voiceState: Doc, member: Option<WithUser>)
    ensures forall op :: op in Dispatch(ctx, VoiceStateUpdate(voiceState, member)) ==> WellFormed(op, ctx)
  {
    CreateWellFormed(ctx, VoiceState, [voiceState["server_id" := ServerId(voiceState)]]);
    if member.Some? {
      CreateWellFormed(ctx, User, [member.value.user]);
      CreateWellFormed(ctx, Member, [VoiceMemberDoc(voiceState, member.value)]);
    }
  }

  lemma MessageWellFormed(ctx: Ctx, guildId: Value, author: Doc, authorMember: Option<Doc>, mentions: seq<Mention>)
    ensures forall op :: op in Dispatch(ctx, MessageCreate(guildId, author, authorMember, mentions)) ==> WellFormed(op, ctx)
  {
    CreateWellFormed(ctx, Member, MessageMembers(guildId, author, authorMember, mentions));
    CreateWellFormed(ctx, User, MessageUsers(author, mentions));
  }

  lemma MemberWritesWellFormed(ctx: Ctx, e: Event)
    requires e.GuildMemberAdd? || e.GuildMemberUpdate? || e.TypingStart? || e.VoiceStateUpdate? || e.MessageCreate?
    ensures forall op :: op in Dispatch(ctx, e) ==> WellFormed(op, ctx)
  {
    match e
    case GuildMemberAdd(added) => MemberAddWellFormed(ctx, added);
    case GuildMemberUpdate(updated) => MemberUpdateWellFormed(ctx, updated);
    case TypingStart(guildId, member) => TypingWellFormed(ctx, guildId, member);
    case VoiceStateUpdate(voiceState, member) => VoiceWellFormed(ctx, voiceState, member);
    case MessageCreate(guildId, author, authorMember, mentions) =>
      MessageWellFormed(ctx, guildId, author, authorMember, mentions);
  }

  lemma GuildDeleteWellFormed(ctx: Ctx, deleted: Doc)
    ensures forall op :: op in Dispatch(ctx, GuildDelete(deleted)) ==> WellFormed(op, ctx)
  {
    if Truthy(Get(deleted, "unavailable")) {
      CreateWellFormed(ctx, Guild, [deleted]);
    } else {
      CascadeWellFormed(ctx, Get(deleted, "id"));
    }
  }

  lemma CascadeWellFormed(ctx: Ctx, gid: Value)
    ensures forall op :: op in Cascade(ctx, gid) ==> WellFormed(op, ctx)
  {
    var first := DeleteOneIf(ctx, Guild, IdFilter(ctx, gid));
    var rest := GuildRecords(ctx, gid);
    GuildRecordsShape(ctx, gid);
    assert Get(GuildFilter(ctx, gid), ShardField) == Num(ctx.shardId);
    assert Get(IdFilter(ctx, gid), ShardField) == Num(ctx.shardId);
    forall op | op in first + rest ensures WellFormed(op, ctx) {
      if op in rest {
        assert op.DeleteMany? && op.filter == GuildFilter(ctx, gid) && op.coll in ctx.models;
      } else {
        assert op in first;
      }
    }
  }

  lemma EmojisUpdateWellFormed(ctx: Ctx, guildId: Value, emojis: seq<Doc>)
    ensures forall op :: op in Dispatch(ctx, GuildEmojisUpdate(guildId, emojis)) ==> WellFormed(op, ctx)
  {
    CreateWellFormed(ctx, Emoji, TagAll("guild_id", guildId, emojis));
  }

  lemma DeletesWellFormed(ctx: Ctx, e: Event)
    requires e.ChannelDelete? || e.GuildDelete? || e.GuildMemberRemove? || e.GuildRoleDelete? || e.GuildEmojisUpdate?
    ensures forall op :: op in Dispatch(ctx, e) ==> WellFormed(op, ctx)
  {
    match e
    case GuildDelete(deleted) => GuildDeleteWellFormed(ctx, deleted);
    case GuildEmojisUpdate(guildId, emojis) => EmojisUpdateWellFormed(ctx, guildId, emojis);
    case _ =>
  }

  lemma DispatchWellFormed(ctx: Ctx, e: Event)
    ensures forall op :: op in Dispatch(ctx, e) ==> WellFormed(op, ctx)
  {
    match e
    case Ready(_, _, _, _) => ReadyWellFormed(ctx, e);
    case ChannelCreate(channel) => CreateWellFormed(ctx, Channel, [channel]);
    case ChannelDelete(_) => DeletesWellFormed(ctx, e);
    case ChannelPinsUpdate(channel) => CreateWellFormed(ctx, Channel, [channel]);
    case ChannelUpdate(channel) => CreateWellFormed(ctx, Channel, [channel]);
    case GuildCreate(guild) => RawGuildsWellFormed(ctx, [guild]);
    case GuildDelete(_) => DeletesWellFormed(ctx, e);
    case GuildEmojisUpdate(_, _) => DeletesWellFormed(ctx, e);
    case GuildMemberAdd(_) => MemberWritesWellFormed(ctx, e);
    case GuildMemberRemove(_, _) => DeletesWellFormed(ctx, e);
    case GuildMemberUpdate(_) => MemberWritesWellFormed(ctx, e);
    case GuildMembersChunk(_, _, _) => ChunkWellFormed(ctx, e);
    case GuildRoleCreate(guildId, role) => CreateWellFormed(ctx, Role, [role["guild_id" := guildId]]);
    case GuildRoleDelete(_, _) => DeletesWellFormed(ctx, e);
    case GuildRoleUpdate(guildId, role) => CreateWellFormed(ctx, Role, [role["guild_id" := guildId]]);
    case GuildUpdate(guild) => RawGuildsWellFormed(ctx, [guild]);
    case MessageCreate(_, _, _, _) => MemberWritesWellFormed(ctx, e);
    case PresenceUpdate(user, presence) => PresenceWellFormed(ctx, user, presence);
    case TypingStart(_, _) => MemberWritesWellFormed(ctx, e);
    case UserUpdate(user) => CreateWellFormed(ctx, User, [user]);
    case VoiceStateUpdate(_, _) => MemberWritesWellFormed(ctx, e);
    case Unknown(_) =>
  }

  /** Every operation a packet issues is scoped to the shard, addresses a
      registered collection and keeps the writer's key unique. */
  lemma PacketWellFormed(h: Handler, ctx: Ctx, p: Packet)
    ensures forall op :: op in OnPacket(h, ctx, p) ==> WellFormed(op, ctx)
  {
    DispatchWellFormed(ctx, p.event);
  }

  /** Shard isolation: no packet changes another shard's records, in any
      collection, or registers or drops a collection. */
  lemma PacketIsolated(st: Store, h: Handler, ctx: Ctx, p: Packet)
    ensures Handle(st, h, ctx, p).Keys == st.Keys
    ensures forall c :: c in st ==> Others(Handle(st, h, ctx, p)[c], ctx.shardId) == Others(st[c], ctx.shardId)
  {
    PacketWellFormed(h, ctx, p);
    ShardIsolation(st, OnPacket(h, ctx, p), ctx.shardId);
  }

  /** Every collection is unique on its writer's key. */
  ghost predicate WriterUnique(st: Store)
  {
    forall c :: c in st ==> UniqueOn(st[c], WriterFields(c))
  }

  lemma WellFormedKeepsUnique(st: Store, ctx: Ctx, ops: seq<Op>)
    requires WriterUnique(st)
    requires forall op :: op in ops ==> WellFormed(op, ctx)
    ensures Apply(st, ops).Keys == st.Keys
    ensures WriterUnique(Apply(st, ops))
  {
    ApplyPerCollection(st, ops);
    forall c | c in st ensures UniqueOn(Apply(st, ops)[c], WriterFields(c)) {
      forall op | op in On(ops, c) ensures KeyedBy(op, WriterFields(c)) {
        assert op in ops && op.coll == c;
      }
      UniqueAfterRun(st[c], On(ops, c), WriterFields(c));
    }
  }

  /** No packet ever makes two records of a collection agree on the key its
      writer filters by. */
  lemma PacketKeepsUnique(st: Store, h: Handler, ctx: Ctx, p: Packet)
    requires WriterUnique(st)
    ensures WriterUnique(Handle(st, h, ctx, p))
  {
    PacketWellFormed(h, ctx, p);
    WellFormedKeepsUnique(st, ctx, OnPacket(h, ctx, p));
  }

  /** Hence every declared unique index except Presence's keeps holding. */
  lemma PacketKeepsIndexes(st: Store, h: Handler, ctx: Ctx, p: Packet)
    requires WriterUnique(st)
    ensures forall c :: c in st && c != Presence ==> c in Handle(st, h, ctx, p) && IndexHolds(c, Handle(st, h, ctx, p)[c])
  {
    PacketKeepsUnique(st, h, ctx, p);
    PacketIsolated(st, h, ctx, p);
    forall c | c in st && c != Presence ensures IndexHolds(c, Handle(st, h, ctx, p)[c]) {
      WriterKeyImpliesIndex(c, Handle(st, h, ctx, p)[c]);
    }
  }

  // ---------------------------------------------------------------------
  // READY

  /** Operations that only write this shard's records of registered
      collections. */
  ghost predicate AllWellFormed(ops: seq<Op>, ctx: Ctx)
  {
    forall op :: op in ops ==> WellFormed(op, ctx)
  }

  /** A reset followed by well-formed writes gives the same store when run
      twice as when run once. */
  lemma {:induction false} ResetThenWritesIdempotent(st: Store, ctx: Ctx, w: seq<Op>)
    requires AllWellFormed(w, ctx)
    ensures Apply(Apply(st, ResetOps(ctx) + w), ResetOps(ctx) + w) == Apply(st, ResetOps(ctx) + w)
  {
    var r := ResetOps(ctx);
    var s := ctx.shardId;
    var wiped := Apply(st, r);
    var x := Apply(st, r + w);
    ApplyConcat(st, r, w);
    assert x == Apply(wiped, w);
    ResetWipesShard(st, ctx);
    ShardIsolation(wiped, w, s);
    ResetWipesShard(x, ctx);
    forall c | c in st ensures Apply(x, r)[c] == wiped[c] {
      if c in ctx.models {
        ShardWipe(st[c], s);
      } else {
        forall op | op in w ensures op.coll != c {
          assert WellFormed(op, ctx);
        }
        UntouchedCollection(wiped, w, c);
      }
    }
    assert Apply(x, r) == wiped;
    ApplyConcat(x, r, w);
  }

  /** READY: handling the same READY twice leaves the store as handling it
      once. */
  lemma ReadyIdempotent(st: Store, ctx: Ctx, e: Event)
    requires e.Ready?
    ensures Apply(Apply(st, Dispatch(ctx, e)), Dispatch(ctx, e)) == Apply(st, Dispatch(ctx, e))
  {
    DispatchWellFormed(ctx, e);
    var w := ReadyWrites(ctx, e.user, e.privateChannels, e.guilds, e.presences);
    assert forall op :: op in w ==> op in Dispatch(ctx, e);
    ResetThenWritesIdempotent(st, ctx, w);
  }

  /** READY forgets the shard's earlier records: each registered collection
      ends as READY's own writes applied to the other shards' records. */
  lemma ReadyForgetsShard(st: Store, ctx: Ctx, e: Event)
    requires e.Ready?
    ensures Apply(st, Dispatch(ctx, e)).Keys == st.Keys
    ensures forall c :: c in st && c in ctx.models ==>
      Apply(st, Dispatch(ctx, e))[c] ==
      Run(Others(st[c], ctx.shardId), On(ReadyWrites(ctx, e.user, e.privateChannels, e.guilds, e.presences), c))
  {
    var r := ResetOps(ctx);
    var w := ReadyWrites(ctx, e.user, e.privateChannels, e.guilds, e.presences);
    ApplyConcat(st, r, w);
    ResetWipesShard(st, ctx);
    ApplyPerCollection(Apply(st, r), w);
  }

  // ---------------------------------------------------------------------
  // Small facts about single operations

  lemma RunSingle(docs: seq<Doc>, op: Op)
    ensures Run(docs, [op]) == ApplyDocs(docs, op)
  {
    assert [op][1..] == [];
  }

  lemma ApplySingle(st: Store, op: Op)
    ensures Apply(st, [op]) == ApplyOp(st, op)
  {
    assert [op][1..] == [];
  }

  lemma OnSingle(ops: seq<Op>, c: Coll)
    requires |ops| <= 1
    ensures On(ops, c) == if ops != [] && ops[0].coll == c then ops else []
  {
    if ops != [] {
      assert ops[1..] == [];
    }
  }

  // ---------------------------------------------------------------------
  // GUILD_DELETE

  lemma GuildRecordsShape(ctx: Ctx, guildId: Value)
    ensures forall op :: op in GuildRecords(ctx, guildId) ==>
      op.DeleteMany? && op.filter == GuildFilter(ctx, guildId) && op.coll in GuildScoped && op.coll in ctx.models
    ensures forall c :: c in GuildScoped && c in ctx.models ==> DeleteMany(c, GuildFilter(ctx, guildId)) in GuildRecords(ctx, guildId)
  {
    var f := GuildFilter(ctx, guildId);
    var a, b, d := DeleteManyIf(ctx, Channel, f), DeleteManyIf(ctx, Emoji, f), DeleteManyIf(ctx, Member, f);
    var p, r, v := DeleteManyIf(ctx, Presence, f), DeleteManyIf(ctx, Role, f), DeleteManyIf(ctx, VoiceState, f);
    assert GuildRecords(ctx, guildId) == a + b + d + p + r + v;
    forall op: Op | op in a + b + d + p + r + v
      ensures op.DeleteMany? && op.filter == f && op.coll in GuildScoped && op.coll in ctx.models
    {
      if op in a + b + d {
        if op in a {} else if op in b {} else { assert op in d; }
      } else if op in p {
      } else if op in r {
      } else {
        assert op in v;
      }
    }
  }

  /** GUILD_DELETE of a guild that is only unavailable upserts the guild
      record, marked unavailable, and touches nothing else. */
  lemma GuildDeleteUnavailable(st: Store, ctx: Ctx, deleted: Doc)
    requires Truthy(Get(deleted, "unavailable"))
    ensures Apply(st, Dispatch(ctx, GuildDelete(deleted))).Keys == st.Keys
    ensures forall c :: c in st && c != Guild ==> Apply(st, Dispatch(ctx, GuildDelete(deleted)))[c] == st[c]
    ensures Guild in st && Guild in ctx.models ==> Holds(Apply(st, Dispatch(ctx, GuildDelete(deleted)))[Guild], Guild, deleted, ctx.shardId)
  {
    var ops := Dispatch(ctx, GuildDelete(deleted));
    CreateWellFormed(ctx, Guild, [deleted]);
    ApplyPerCollection(st, ops);
    forall c | c in st && c != Guild ensures Apply(st, ops)[c] == st[c] {
      UntouchedCollection(st, ops, c);
    }
    if Guild in st && Guild in ctx.models {
      CreateStores(st, ctx, Guild, [deleted], 0);
    }
  }

  /** A `deleteOne` by a writer's full key, alone on its collection, removes
      the one record with that key and keeps every other. */
  lemma DeleteOneOnly(st: Store, ops: seq<Op>, c: Coll, f: Filter, fields: seq<string>)
    requires c in st && On(ops, c) == [DeleteOne(c, f)]
    requires UniqueOn(st[c], fields) && forall k :: k in f <==> k in fields
    ensures Apply(st, ops).Keys == st.Keys
    ensures forall r :: r in Apply(st, ops)[c] ==> !Matches(r, f)
    ensures forall r :: r in st[c] && !Matches(r, f) ==> r in Apply(st, ops)[c]
  {
    ApplyPerCollection(st, ops);
    RunSingle(st[c], DeleteOne(c, f));
    DeleteFirstLeavesNone(st[c], f, fields);
  }

  lemma CascadeOnGuild(ctx: Ctx, gid: Value)
    requires Guild in ctx.models
    ensures On(Cascade(ctx, gid), Guild) == [DeleteOne(Guild, IdFilter(ctx, gid))]
  {
    var first := [DeleteOne(Guild, IdFilter(ctx, gid))];
    var rest := GuildRecords(ctx, gid);
    assert Cascade(ctx, gid) == first + rest;
    GuildRecordsShape(ctx, gid);
    forall op | op in rest ensures op.coll != Guild {
      assert op.coll in GuildScoped;
    }
    OnConcat(first, rest, Guild);
    OnOther(rest, Guild);
    OnSingle(first, Guild);
  }

  lemma CascadeGuild(st: Store, ctx: Ctx, gid: Value)
    requires Guild in st && Guild in ctx.models
    requires UniqueOn(st[Guild], WriterFields(Guild))
    ensures Apply(st, Cascade(ctx, gid)).Keys == st.Keys
    ensures forall r :: r in Apply(st, Cascade(ctx, gid))[Guild] ==> !Matches(r, IdFilter(ctx, gid))
    ensures forall r :: r in st[Guild] && !Matches(r, IdFilter(ctx, gid)) ==> r in Apply(st, Cascade(ctx, gid))[Guild]
  {
    CascadeOnGuild(ctx, gid);
    assert forall k :: k in IdFilter(ctx, gid) <==> k in WriterFields(Guild);
    DeleteOneOnly(st, Cascade(ctx, gid), Guild, IdFilter(ctx, gid), WriterFields(Guild));
  }

  /** Deletes that, outside the guild collection, all filter by `f` and
      include a `deleteMany(f)` on each collection of `wiped`: afterwards no
      record of those collections matches `f`, every record outside the guild
      collection that does not match `f` survives, and a collection no delete
      addresses is untouched. */
  lemma DeletesBy(st: Store, ops: seq<Op>, f: Filter, wiped: set<Coll>, kept: Coll)
    requires forall op :: op in ops ==> IsDelete(op) && (op.coll == Guild || op.filter == f) && op.coll != kept
    requires forall c :: c in wiped ==> DeleteMany(c, f) in ops
    ensures Apply(st, ops).Keys == st.Keys
    ensures forall c, r :: c in st && c in wiped && r in Apply(st, ops)[c] ==> !Matches(r, f)
    ensures forall c, r :: c in st && c != Guild && r in st[c] && !Matches(r, f) ==> r in Apply(st, ops)[c]
    ensures kept in st ==> Apply(st, ops)[kept] == st[kept]
  {
    ApplyPerCollection(st, ops);
    forall c | c in st && c in wiped
      ensures forall r :: r in Apply(st, ops)[c] ==> !Matches(r, f)
    {
      assert DeleteMany(c, f) in On(ops, c);
      RunDeleteManyLeavesNone(st[c], On(ops, c), f);
    }
    forall c, r | c in st && c != Guild && r in st[c] && !Matches(r, f)
      ensures r in Apply(st, ops)[c]
    {
      RunDeletesKeep(st[c], On(ops, c), r);
    }
    if kept in st {
      OnOther(ops, kept);
    }
  }

  lemma CascadeShape(ctx: Ctx, gid: Value)
    ensures forall op :: op in Cascade(ctx, gid) ==>
      IsDelete(op) && (op.coll == Guild || op.filter == GuildFilter(ctx, gid)) && op.coll != User
    ensures forall c :: c in GuildScoped * ctx.models ==> DeleteMany(c, GuildFilter(ctx, gid)) in Cascade(ctx, gid)
  {
    GuildRecordsShape(ctx, gid);
  }

  lemma CascadeScoped(st: Store, ctx: Ctx, gid: Value)
    ensures Apply(st, Cascade(ctx, gid)).Keys == st.Keys
    ensures forall c, r :: c in st && c in GuildScoped && c in ctx.models && r in Apply(st, Cascade(ctx, gid))[c] ==>
      !Matches(r, GuildFilter(ctx, gid))
    ensures forall c, r :: c in st && c != Guild && r in st[c] && !Matches(r, GuildFilter(ctx, gid)) ==>
      r in Apply(st, Cascade(ctx, gid))[c]
    ensures User in st ==> Apply(st, Cascade(ctx, gid))[User] == st[User]
  {
    CascadeShape(ctx, gid);
    DeletesBy(st, Cascade(ctx, gid), GuildFilter(ctx, gid), GuildScoped * ctx.models, User);
  }

  /** GUILD_DELETE of a guild that is gone: afterwards no record of the shard
      has the guild's id, and no record of the six guild-scoped collections
      has its `guild_id`; every other record stays, and users are kept. */
  lemma GuildDeleteCascade(st: Store, ctx: Ctx, deleted: Doc)
    requires !Truthy(Get(deleted, "unavailable"))
    requires Guild in st ==> UniqueOn(st[Guild], WriterFields(Guild))
    ensures Apply(st, Dispatch(ctx, GuildDelete(deleted))).Keys == st.Keys
    ensures Guild in st && Guild in ctx.models ==>
      forall r :: r in Apply(st, Dispatch(ctx, GuildDelete(deleted)))[Guild] ==> !Matches(r, IdFilter(ctx, Get(deleted, "id")))
    ensures forall c, r :: c in st && c in GuildScoped && c in ctx.models && r in Apply(st, Dispatch(ctx, GuildDelete(deleted)))[c] ==>
      !Matches(r, GuildFilter(ctx, Get(deleted, "id")))
    ensures forall r :: Guild in st && Guild in ctx.models && r in st[Guild] && !Matches(r, IdFilter(ctx, Get(deleted, "id"))) ==>
      r in Apply(st, Dispatch(ctx, GuildDelete(deleted)))[Guild]
    ensures forall c, r :: c in st && c != Guild && r in st[c] && !Matches(r, GuildFilter(ctx, Get(deleted, "id"))) ==>
      r in Apply(st, Dispatch(ctx, GuildDelete(deleted)))[c]
    ensures User in st ==> Apply(st, Dispatch(ctx, GuildDelete(deleted)))[User] == st[User]
  {
    var gid := Get(deleted, "id");
    assert Dispatch(ctx, GuildDelete(deleted)) == Cascade(ctx, gid);
    CascadeScoped(st, ctx, gid);
    if Guild in st && Guild in ctx.models {
      CascadeGuild(st, ctx, gid);
    }
  }

  /** Presence records written from a guild's own payload carry `cache_id`
      but no `guild_id`, so deleting that guild leaves them in place. */
  lemma GuildDeleteKeepsCachedPresences(st: Store, ctx: Ctx, deleted: Doc, r: Doc)
    requires Presence in st && r in st[Presence]
    requires Get(r, "guild_id") == Null && Get(deleted, "id") != Null
    requires Guild in st ==> UniqueOn(st[Guild], WriterFields(Guild))
    ensures Presence in Apply(st, Dispatch(ctx, GuildDelete(deleted)))
    ensures r in Apply(st, Dispatch(ctx, GuildDelete(deleted)))[Presence]
  {
    if Truthy(Get(deleted, "unavailable")) {
      GuildDeleteUnavailable(st, ctx, deleted);
    } else {
      GuildDeleteCascade(st, ctx, deleted);
      assert !Matches(r, GuildFilter(ctx, Get(deleted, "id"))) by {
        assert "guild_id" in GuildFilter(ctx, Get(deleted, "id"));
      }
    }
  }

  /** The raw-guild writer tags presences with `cache_id` only. */
  lemma RawGuildPresencesLackGuildId(g: RawGuild, p: WithUser)
    requires "guild_id" !in p.fields
    ensures Get(TagPresence(GuildId(g), p), "guild_id") == Null
  {
  }

  // ---------------------------------------------------------------------
  // Writes that later operations leave alone

  /** An item written by `createX` between operations that do not touch its
      collection is held afterwards. */
  lemma StoresThrough(st: Store, ctx: Ctx, c: Coll, items: seq<Doc>, i: nat, before: seq<Op>, after: seq<Op>)
    requires c in st && c in ctx.models && i < |items|
    requires forall j :: i < j < |items| ==> KeyDiffers(c, items[i], items[j])
    requires forall op :: op in before ==> op.coll != c
    requires forall op :: op in after ==> op.coll != c
    ensures c in Apply(st, before + CreateOps(ctx, c, items) + after)
    ensures Holds(Apply(st, before + CreateOps(ctx, c, items) + after)[c], c, items[i], ctx.shardId)
  {
    var w := CreateOps(ctx, c, items);
    ApplyConcat(st, before + w, after);
    ApplyConcat(st, before, w);
    UntouchedCollection(st, before, c);
    CreateStores(Apply(st, before), ctx, c, items, i);
    ApplyPerCollection(Apply(st, before + w), after);
    UntouchedCollection(Apply(st, before + w), after, c);
  }

  // ---------------------------------------------------------------------
  // Events that write or delete one record

  predicate SingleUpsert(e: Event)
  {
    e.ChannelCreate? || e.ChannelPinsUpdate? || e.ChannelUpdate? || e.UserUpdate? || e.GuildRoleCreate? || e.GuildRoleUpdate?
  }

  /** The collection and the item of an event that upserts one record. */
  function UpsertTarget(e: Event): (Coll, Doc)
    requires SingleUpsert(e)
  {
    match e
    case ChannelCreate(channel) => (Channel, channel)
    case ChannelPinsUpdate(channel) => (Channel, channel)
    case ChannelUpdate(channel) => (Channel, channel)
    case UserUpdate(user) => (User, user)
    case GuildRoleCreate(guildId, role) => (Role, role["guild_id" := guildId])
    case GuildRoleUpdate(guildId, role) => (Role, role["guild_id" := guildId])
  }

  /** CHANNEL_CREATE, CHANNEL_PINS_UPDATE, CHANNEL_UPDATE, USER_UPDATE and
      the role creates and updates hold their record afterwards and leave
      every other collection as it was. */
  lemma UpsertEventStores(st: Store, ctx: Ctx, e: Event)
    requires SingleUpsert(e)
    ensures Apply(st, Dispatch(ctx, e)).Keys == st.Keys
    ensures forall c :: c in st && c != UpsertTarget(e).0 ==> Apply(st, Dispatch(ctx, e))[c] == st[c]
    ensures UpsertTarget(e).0 in st && UpsertTarget(e).0 in ctx.models ==>
      Holds(Apply(st, Dispatch(ctx, e))[UpsertTarget(e).0], UpsertTarget(e).0, UpsertTarget(e).1, ctx.shardId)
  {
    var (c, item) := UpsertTarget(e);
    var ops := CreateOps(ctx, c, [item]);
    assert Dispatch(ctx, e) == ops;
    CreateWellFormed(ctx, c, [item]);
    ApplyPerCollection(st, ops);
    forall c' | c' in st && c' != c ensures Apply(st, ops)[c'] == st[c'] {
      UntouchedCollection(st, ops, c');
    }
    if c in st && c in ctx.models {
      CreateStores(st, ctx, c, [item], 0);
    }
  }

  predicate SingleDelete(e: Event)
  {
    e.ChannelDelete? || e.GuildRoleDelete?
  }

  /** The collection and the filter of an event that deletes one record. */
  function DeleteTarget(ctx: Ctx, e: Event): (Coll, Filter)
    requires SingleDelete(e)
  {
    match e
    case ChannelDelete(channel) => (Channel, IdFilter(ctx, Get(channel, "id")))
    case GuildRoleDelete(guildId, roleId) =>
      (Role, map["guild_id" := guildId, "id" := roleId, ShardField := Num(ctx.shardId)])
  }

  /** CHANNEL_DELETE and GUILD_ROLE_DELETE: on a collection unique on its
      writer's key, no record with the deleted key remains, all others
      remain, and the other collections are as they were. */
  lemma DeleteEventRemoves(st: Store, ctx: Ctx, e: Event)
    requires SingleDelete(e)
    requires DeleteTarget(ctx, e).0 in st ==> UniqueOn(st[DeleteTarget(ctx, e).0], WriterFields(DeleteTarget(ctx, e).0))
    ensures Apply(st, Dispatch(ctx, e)).Keys == st.Keys
    ensures forall c :: c in st && c != DeleteTarget(ctx, e).0 ==> Apply(st, Dispatch(ctx, e))[c] == st[c]
    ensures DeleteTarget(ctx, e).0 in st && DeleteTarget(ctx, e).0 in ctx.models ==>
      (forall r :: r in Apply(st, Dispatch(ctx, e))[DeleteTarget(ctx, e).0] ==> !Matches(r, DeleteTarget(ctx, e).1)) &&
      (forall r :: r in st[DeleteTarget(ctx, e).0] && !Matches(r, DeleteTarget(ctx, e).1) ==>
         r in Apply(st, Dispatch(ctx, e))[DeleteTarget(ctx, e).0])
  {
    var (c, f) := DeleteTarget(ctx, e);
    var ops := DeleteOneIf(ctx, c, f);
    DeleteTargetKeyed(ctx, e);
    ApplyPerCollection(st, ops);
    forall c' | c' in st && c' != c ensures Apply(st, ops)[c'] == st[c'] {
      UntouchedCollection(st, ops, c');
    }
    if c in st && c in ctx.models {
      OnSingle(ops, c);
      DeleteOneOnly(st, ops, c, f, WriterFields(c));
    }
  }

  /** Such an event is one `deleteOne` by the full writer key of its collection. */
  lemma DeleteTargetKeyed(ctx: Ctx, e: Event)
    requires SingleDelete(e)
    ensures Dispatch(ctx, e) == DeleteOneIf(ctx, DeleteTarget(ctx, e).0, DeleteTarget(ctx, e).1)
    ensures forall k :: k in DeleteTarget(ctx, e).1 <==> k in WriterFields(DeleteTarget(ctx, e).0)
  {
    match e
    case ChannelDelete(channel) =>
      assert Dispatch(ctx, ChannelDelete(channel)) == DeleteOneIf(ctx, Channel, IdFilter(ctx, Get(channel, "id")));
    case GuildRoleDelete(guildId, roleId) =>
      assert Dispatch(ctx, GuildRoleDelete(guildId, roleId)) ==
        DeleteOneIf(ctx, Role, map["guild_id" := guildId, "id" := roleId, ShardField := Num(ctx.shardId)]);
  }

  // ---------------------------------------------------------------------
  // GUILD_EMOJIS_UPDATE

  /** GUILD_EMOJIS_UPDATE is the wipe of the guild's emojis followed by the
      upserts of the payload's, on the emoji collection alone. */
  lemma EmojisOps(st: Store, ctx: Ctx, guildId: Value, emojis: seq<Doc>)
    requires Emoji in st && Emoji in ctx.models
    ensures Apply(st, Dispatch(ctx, GuildEmojisUpdate(guildId, emojis))).Keys == st.Keys
    ensures forall c :: c in st && c != Emoji ==> Apply(st, Dispatch(ctx, GuildEmojisUpdate(guildId, emojis)))[c] == st[c]
    ensures Apply(st, Dispatch(ctx, GuildEmojisUpdate(guildId, emojis))) ==
      Apply(st[Emoji := DeleteAll(st[Emoji], GuildFilter(ctx, guildId))], CreateOps(ctx, Emoji, TagAll("guild_id", guildId, emojis)))
    ensures Apply(st, Dispatch(ctx, GuildEmojisUpdate(guildId, emojis)))[Emoji] ==
      UpsertAll(DeleteAll(st[Emoji], GuildFilter(ctx, guildId)), Writes(Emoji, TagAll("guild_id", guildId, emojis), ctx.shardId))
  {
    var gf := GuildFilter(ctx, guildId);
    var tagged := TagAll("guild_id", guildId, emojis);
    var d := [DeleteMany(Emoji, gf)];
    var w := CreateOps(ctx, Emoji, tagged);
    var ops := d + w;
    assert Dispatch(ctx, GuildEmojisUpdate(guildId, emojis)) == ops;
    var mid := st[Emoji := DeleteAll(st[Emoji], gf)];
    assert Apply(st, d) == mid by {
      ApplySingle(st, DeleteMany(Emoji, gf));
    }
    ApplyConcat(st, d, w);
    CreateWellFormed(ctx, Emoji, tagged);
    ApplyPerCollection(st, ops);
    forall c | c in st && c != Emoji ensures Apply(st, ops)[c] == st[c] {
      UntouchedCollection(st, ops, c);
    }
    if tagged != [] {
      ApplySingle(mid, BulkWrite(Emoji, Writes(Emoji, tagged, ctx.shardId)));
    }
  }

  /** After the wipe and the upserts, every record matching the guild filter
      carries one of the upserts' updates. */
  lemma EmojisFromPayload(docs: seq<Doc>, gf: Filter, ws: seq<Upsert>)
    ensures forall r :: r in UpsertAll(DeleteAll(docs, gf), ws) && Matches(r, gf) ==>
      exists i :: 0 <= i < |ws| && Carries(r, ws[i].update)
  {
    DeleteAllLeavesNone(docs, gf);
    UpsertAllFrom(DeleteAll(docs, gf), gf, [], ws);
    assert [] + ws == ws;
    forall r | r in UpsertAll(DeleteAll(docs, gf), ws) && Matches(r, gf)
      ensures exists i :: 0 <= i < |ws| && Carries(r, ws[i].update)
    {
      var u :| u in ws && Carries(r, u.update);
      var i :| 0 <= i < |ws| && ws[i] == u;
    }
  }

  /** A payload emoji whose id no later one repeats is held after the writes. */
  lemma EmojiHeld(mid: Store, ctx: Ctx, guildId: Value, emojis: seq<Doc>, i: nat)
    requires Emoji in mid && Emoji in ctx.models && i < |emojis|
    requires forall j :: i < j < |emojis| ==> Get(emojis[i], "id") != Get(emojis[j], "id")
    ensures Emoji in Apply(mid, CreateOps(ctx, Emoji, TagAll("guild_id", guildId, emojis)))
    ensures Holds(Apply(mid, CreateOps(ctx, Emoji, TagAll("guild_id", guildId, emojis)))[Emoji], Emoji, emojis[i]["guild_id" := guildId], ctx.shardId)
  {
    var tagged := TagAll("guild_id", guildId, emojis);
    forall j | i < j < |tagged| ensures KeyDiffers(Emoji, tagged[i], tagged[j]) {
      assert "id" in WriterKey(Emoji) && Get(tagged[i], "id") != Get(tagged[j], "id");
    }
    CreateStores(mid, ctx, Emoji, tagged, i);
  }

  /** After the guild's records are deleted and the payload written, a record
      of the guild carries one of the payload's emojis. */
  lemma EmojiCarried(docs: seq<Doc>, gf: Filter, guildId: Value, emojis: seq<Doc>, s: int)
    ensures forall r :: r in UpsertAll(DeleteAll(docs, gf), Writes(Emoji, TagAll("guild_id", guildId, emojis), s)) && Matches(r, gf) ==>
      exists i :: 0 <= i < |emojis| && Carries(r, emojis[i]["guild_id" := guildId][ShardField := Num(s)])
  {
    var tagged := TagAll("guild_id", guildId, emojis);
    var ws := Writes(Emoji, tagged, s);
    EmojisFromPayload(docs, gf, ws);
    forall r | r in UpsertAll(DeleteAll(docs, gf), ws) && Matches(r, gf)
      ensures exists i :: 0 <= i < |emojis| && Carries(r, emojis[i]["guild_id" := guildId][ShardField := Num(s)])
    {
      var i :| 0 <= i < |ws| && Carries(r, ws[i].update);
      assert ws[i].update == tagged[i][ShardField := Num(s)];
    }
  }

  /** GUILD_EMOJIS_UPDATE replaces the guild's emojis: afterwards every emoji
      record of the guild in this shard carries one of the payload's emojis,
      every payload emoji whose id no later one repeats is held, and the
      other collections are as they were. */
  lemma EmojisReplaced(st: Store, ctx: Ctx, guildId: Value, emojis: seq<Doc>)
    requires Emoji in st && Emoji in ctx.models
    ensures Apply(st, Dispatch(ctx, GuildEmojisUpdate(guildId, emojis))).Keys == st.Keys
    ensures forall c :: c in st && c != Emoji ==> Apply(st, Dispatch(ctx, GuildEmojisUpdate(guildId, emojis)))[c] == st[c]
    ensures forall r :: r in Apply(st, Dispatch(ctx, GuildEmojisUpdate(guildId, emojis)))[Emoji] && Matches(r, GuildFilter(ctx, guildId)) ==>
      exists i :: 0 <= i < |emojis| && Carries(r, emojis[i]["guild_id" := guildId][ShardField := Num(ctx.shardId)])
    ensures forall i :: 0 <= i < |emojis| && (forall j :: i < j < |emojis| ==> Get(emojis[i], "id") != Get(emojis[j], "id")) ==>
      Holds(Apply(st, Dispatch(ctx, GuildEmojisUpdate(guildId, emojis)))[Emoji], Emoji, emojis[i]["guild_id" := guildId], ctx.shardId)
  {
    var gf := GuildFilter(ctx, guildId);
    EmojisOps(st, ctx, guildId, emojis);
    var mid := st[Emoji := DeleteAll(st[Emoji], gf)];
    forall i | 0 <= i < |emojis| && (forall j :: i < j < |emojis| ==> Get(emojis[i], "id") != Get(emojis[j], "id"))
      ensures Holds(Apply(mid, CreateOps(ctx, Emoji, TagAll("guild_id", guildId, emojis)))[Emoji], Emoji, emojis[i]["guild_id" := guildId], ctx.shardId)
    {
      EmojiHeld(mid, ctx, guildId, emojis, i);
    }
    EmojiCarried(st[Emoji], gf, guildId, emojis, ctx.shardId);
  }

  // ---------------------------------------------------------------------
  // GUILD_MEMBER_ADD and GUILD_MEMBER_REMOVE

  lemma OnCount(ctx: Ctx, guildId: Value, amount: int, rest: seq<Op>)
    requires forall op :: op in rest ==> op.coll != Guild
    ensures On(CountIf(ctx, guildId, amount) + rest, Guild) == CountIf(ctx, guildId, amount)
  {
    OnConcat(CountIf(ctx, guildId, amount), rest, Guild);
    OnOther(rest, Guild);
    OnSingle(CountIf(ctx, guildId, amount), Guild);
  }

  /** The guild records after the member count moves by `amount`. */
  lemma CountedGuilds(st: Store, ctx: Ctx, guildId: Value, amount: int, rest: seq<Op>)
    requires Guild in st
    requires forall op :: op in rest ==> op.coll != Guild
    ensures Guild in Apply(st, CountIf(ctx, guildId, amount) + rest)
    ensures Apply(st, CountIf(ctx, guildId, amount) + rest)[Guild] ==
      if Guild in ctx.models then Increment(st[Guild], IdFilter(ctx, guildId), "count", amount) else st[Guild]
  {
    ApplyPerCollection(st, CountIf(ctx, guildId, amount) + rest);
    OnCount(ctx, guildId, amount, rest);
    if Guild in ctx.models {
      RunSingle(st[Guild], IncrementOne(Guild, IdFilter(ctx, guildId), "count", amount));
    }
  }

  /** Moving a guild's count up and back down, around operations on other
      collections, restores the guild records when the count is a number. */
  lemma CountRoundTrip(st: Store, ctx: Ctx, guildId: Value, up: seq<Op>, down: seq<Op>)
    requires Guild in st
    requires forall op :: op in up ==> op.coll != Guild
    requires forall op :: op in down ==> op.coll != Guild
    requires var f := IdFilter(ctx, guildId);
      FirstMatch(st[Guild], f) < |st[Guild]| ==>
        "count" in st[Guild][FirstMatch(st[Guild], f)] && st[Guild][FirstMatch(st[Guild], f)]["count"].Num?
    ensures Guild in Apply(Apply(st, CountIf(ctx, guildId, 1) + up), CountIf(ctx, guildId, -1) + down)
    ensures Apply(Apply(st, CountIf(ctx, guildId, 1) + up), CountIf(ctx, guildId, -1) + down)[Guild] == st[Guild]
  {
    CountedGuilds(st, ctx, guildId, 1, up);
    CountedGuilds(Apply(st, CountIf(ctx, guildId, 1) + up), ctx, guildId, -1, down);
    if Guild in ctx.models {
      IncrementInverse(st[Guild], IdFilter(ctx, guildId), "count", 1);
    }
  }

  /** A member joining and then leaving the same guild leaves the guild
      records as they were, as long as the guild's `count` is a number. */
  lemma MemberAddThenRemove(st: Store, ctx: Ctx, added: WithUser, user: Doc)
    requires Guild in st
    requires var f := IdFilter(ctx, Get(added.fields, "guild_id"));
      FirstMatch(st[Guild], f) < |st[Guild]| ==>
        "count" in st[Guild][FirstMatch(st[Guild], f)] && st[Guild][FirstMatch(st[Guild], f)]["count"].Num?
    ensures Guild in Apply(Apply(st, Dispatch(ctx, GuildMemberAdd(added))), Dispatch(ctx, GuildMemberRemove(Get(added.fields, "guild_id"), user)))
    ensures Apply(Apply(st, Dispatch(ctx, GuildMemberAdd(added))), Dispatch(ctx, GuildMemberRemove(Get(added.fields, "guild_id"), user)))[Guild] == st[Guild]
  {
    var gid := Get(added.fields, "guild_id");
    var cu := CreateOps(ctx, User, [added.user]);
    var cm := CreateOps(ctx, Member, [MemberDoc(added)]);
    var del := DeleteOneIf(ctx, Member, map["guild_id" := gid, "id" := Get(user, "id"), ShardField := Num(ctx.shardId)]);
    assert Dispatch(ctx, GuildMemberAdd(added)) == CountIf(ctx, gid, 1) + (cu + cm);
    assert Dispatch(ctx, GuildMemberRemove(gid, user)) == CountIf(ctx, gid, -1) + del;
    assert forall op: Op :: op in cu + cm ==> op.coll != Guild by {
      CreateWellFormed(ctx, User, [added.user]);
      CreateWellFormed(ctx, Member, [MemberDoc(added)]);
    }
    CountRoundTrip(st, ctx, gid, cu + cm, del);
  }

  lemma MemberAddStoresOps(st: Store, ctx: Ctx, added: WithUser, count: seq<Op>, cu: seq<Op>, cm: seq<Op>)
    requires User in st && User in ctx.models && Member in st && Member in ctx.models
    requires forall op :: op in count ==> op.coll == Guild
    requires cu == CreateOps(ctx, User, [added.user]) && cm == CreateOps(ctx, Member, [MemberDoc(added)])
    ensures Apply(st, count + cu + cm).Keys == st.Keys
    ensures Holds(Apply(st, count + cu + cm)[User], User, added.user, ctx.shardId)
    ensures Holds(Apply(st, count + cu + cm)[Member], Member, MemberDoc(added), ctx.shardId)
  {
    CreateWellFormed(ctx, User, [added.user]);
    CreateWellFormed(ctx, Member, [MemberDoc(added)]);
    ApplyPerCollection(st, count + cu + cm);
    forall op | op in count ensures op.coll != User {
      assert op.coll == Guild;
    }
    forall op | op in cm ensures op.coll != User {
      assert op.coll == Member;
    }
    StoresThrough(st, ctx, User, [added.user], 0, count, cm);
    forall op | op in count + cu ensures op.coll != Member {
      assert op in count || op in cu;
    }
    assert count + cu + cm + [] == count + cu + cm;
    StoresThrough(st, ctx, Member, [MemberDoc(added)], 0, count + cu, []);
  }

  /** GUILD_MEMBER_ADD holds the user and the member record, keyed by the
      guild and the user's id. */
  lemma MemberAddStores(st: Store, ctx: Ctx, added: WithUser)
    requires User in st && User in ctx.models && Member in st && Member in ctx.models
    ensures Apply(st, Dispatch(ctx, GuildMemberAdd(added))).Keys == st.Keys
    ensures Holds(Apply(st, Dispatch(ctx, GuildMemberAdd(added)))[User], User, added.user, ctx.shardId)
    ensures Holds(Apply(st, Dispatch(ctx, GuildMemberAdd(added)))[Member], Member, MemberDoc(added), ctx.shardId)
    ensures Get(MemberDoc(added), "user_id") == Get(added.user, "id")
  {
    var count := CountIf(ctx, Get(added.fields, "guild_id"), 1);
    var cu := CreateOps(ctx, User, [added.user]);
    var cm := CreateOps(ctx, Member, [MemberDoc(added)]);
    assert Dispatch(ctx, GuildMemberAdd(added)) == count + cu + cm;
    MemberAddStoresOps(st, ctx, added, count, cu, cm);
  }

  /** A collection that at most a `deleteOne` by `f` addresses, and in which
      no record matches `f`, is left as it was. */
  lemma NoMatchKept(st: Store, ops: seq<Op>, c: Coll, f: Filter)
    requires c in st && (On(ops, c) == [] || On(ops, c) == [DeleteOne(c, f)])
    requires forall j :: 0 <= j < |st[c]| ==> !Matches(st[c][j], f)
    ensures Apply(st, ops).Keys == st.Keys
    ensures Apply(st, ops)[c] == st[c]
  {
    ApplyPerCollection(st, ops);
    if On(ops, c) != [] {
      RunSingle(st[c], DeleteOne(c, f));
    }
  }

  lemma MemberRemoveOn(ctx: Ctx, guildId: Value, user: Doc, f: Filter)
    requires f == map["guild_id" := guildId, "id" := Get(user, "id"), ShardField := Num(ctx.shardId)]
    ensures On(Dispatch(ctx, GuildMemberRemove(guildId, user)), Member) == DeleteOneIf(ctx, Member, f)
  {
    var del := DeleteOneIf(ctx, Member, f);
    assert Dispatch(ctx, GuildMemberRemove(guildId, user)) == CountIf(ctx, guildId, -1) + del;
    OnConcat(CountIf(ctx, guildId, -1), del, Member);
    OnOther(CountIf(ctx, guildId, -1), Member);
    OnSingle(del, Member);
  }

  /** GUILD_MEMBER_REMOVE filters on the member's `id`, which the member
      records the handler writes do not carry (they hold `user_id`): when no
      member record carries an `id` and the user has one, no member record
      is removed. */
  lemma MemberRemoveKeepsMembers(st: Store, ctx: Ctx, guildId: Value, user: Doc)
    requires Member in st
    requires Get(user, "id") != Null
    requires forall r :: r in st[Member] ==> "id" !in r
    ensures Apply(st, Dispatch(ctx, GuildMemberRemove(guildId, user))).Keys == st.Keys
    ensures Apply(st, Dispatch(ctx, GuildMemberRemove(guildId, user)))[Member] == st[Member]
  {
    var f := map["guild_id" := guildId, "id" := Get(user, "id"), ShardField := Num(ctx.shardId)];
    MemberRemoveOn(ctx, guildId, user, f);
    forall j | 0 <= j < |st[Member]| ensures !Matches(st[Member][j], f) {
      assert "id" in f && Get(st[Member][j], "id") == Null;
    }
    NoMatchKept(st, Dispatch(ctx, GuildMemberRemove(guildId, user)), Member, f);
  }

  /** The member records GUILD_MEMBER_ADD writes carry an `id` only if the
      payload does. */
  lemma MemberDocKeys(m: WithUser)
    ensures "id" in MemberDoc(m) <==> "id" in m.fields
    ensures MemberDoc(m)["user_id"] == UserId(m)
  {
  }

  // ---------------------------------------------------------------------
  // PRESENCE_UPDATE

  /** The three parts of PRESENCE_UPDATE: the user, then the presence write or
      delete, then the member of a guild presence, each on its own
      collection. */
  lemma PresenceParts(ctx: Ctx, user: Doc, presence: Doc)
    ensures var u := CreateOps(ctx, User, [user]);
      var p := if IsOffline(presence) then DeleteOneIf(ctx, Presence, PresenceFilter(ctx, user, presence))
               else CreateOps(ctx, Presence, [PresenceDoc(user, presence)]);
      var m := if Truthy(Get(presence, "guild_id")) then CreateOps(ctx, Member, [PresenceMemberDoc(user, presence)]) else [];
      PresenceOps(ctx, user, presence) == u + p + m &&
      (forall op :: op in u ==> op.coll == User) &&
      (forall op :: op in p ==> op.coll == Presence) &&
      (forall op :: op in m ==> op.coll == Member)
  {
    CreateWellFormed(ctx, User, [user]);
    CreateWellFormed(ctx, Presence, [PresenceDoc(user, presence)]);
    CreateWellFormed(ctx, Member, [PresenceMemberDoc(user, presence)]);
  }

  lemma PresenceOfflineOn(ctx: Ctx, user: Doc, presence: Doc)
    requires IsOffline(presence) && Presence in ctx.models
    ensures On(PresenceOps(ctx, user, presence), Presence) == [DeleteOne(Presence, PresenceFilter(ctx, user, presence))]
  {
    var u := CreateOps(ctx, User, [user]);
    var p := [DeleteOne(Presence, PresenceFilter(ctx, user, presence))];
    var m := if Truthy(Get(presence, "guild_id")) then CreateOps(ctx, Member, [PresenceMemberDoc(user, presence)]) else [];
    PresenceParts(ctx, user, presence);
    OnConcat(u + p, m, Presence);
    OnConcat(u, p, Presence);
    OnOther(u, Presence);
    OnOther(m, Presence);
    OnSingle(p, Presence);
  }

  /** An offline presence is deleted: on a presence collection unique on the
      writer's key, no record with the presence's cache id, user id and shard
      remains, and every other record does. */
  lemma PresenceOfflineRemoves(st: Store, ctx: Ctx, user: Doc, presence: Doc)
    requires IsOffline(presence)
    requires Presence in st && Presence in ctx.models
    requires UniqueOn(st[Presence], WriterFields(Presence))
    ensures Apply(st, PresenceOps(ctx, user, presence)).Keys == st.Keys
    ensures forall r :: r in Apply(st, PresenceOps(ctx, user, presence))[Presence] ==>
      !Matches(r, PresenceFilter(ctx, user, presence))
    ensures forall r :: r in st[Presence] && !Matches(r, PresenceFilter(ctx, user, presence)) ==>
      r in Apply(st, PresenceOps(ctx, user, presence))[Presence]
  {
    var f := PresenceFilter(ctx, user, presence);
    PresenceOfflineOn(ctx, user, presence);
    assert forall k :: k in f <==> k in WriterFields(Presence);
    DeleteOneOnly(st, PresenceOps(ctx, user, presence), Presence, f, WriterFields(Presence));
  }


  /** Any other presence is held, under the guild's id as its cache id, or
      `"@me"` for a presence without a guild, and under the user's id. */
  lemma PresenceOnlineStores(st: Store, ctx: Ctx, user: Doc, presence: Doc)
    requires !IsOffline(presence)
    requires Presence in st && Presence in ctx.models
    ensures Presence in Apply(st, PresenceOps(ctx, user, presence))
    ensures Holds(Apply(st, PresenceOps(ctx, user, presence))[Presence], Presence, PresenceDoc(user, presence), ctx.shardId)
    ensures exists r :: (r in Apply(st, PresenceOps(ctx, user, presence))[Presence] &&
      InShard(r, ctx.shardId) && Get(r, "user_id") == Get(user, "id") &&
      Get(r, "cache_id") == (if Truthy(Get(presence, "guild_id")) then Get(presence, "guild_id") else Str(SelfCache)))
  {
    var pd := PresenceDoc(user, presence);
    var u := CreateOps(ctx, User, [user]);
    var m := if Truthy(Get(presence, "guild_id")) then CreateOps(ctx, Member, [PresenceMemberDoc(user, presence)]) else [];
    PresenceParts(ctx, user, presence);
    StoresThrough(st, ctx, Presence, [pd], 0, u, m);
    HeldRecord(Apply(st, PresenceOps(ctx, user, presence))[Presence], Presence, pd, ctx.shardId);
    assert "cache_id" in WriterKey(Presence) && "user_id" in WriterKey(Presence);
  }

  /** PRESENCE_UPDATE writes the user first; it deletes the presence record
      exactly when the status is offline; it writes a member exactly when
      the presence names a guild. */
  lemma PresenceOpsShape(ctx: Ctx, user: Doc, presence: Doc)
    ensures User in ctx.models ==>
      |PresenceOps(ctx, user, presence)| > 0 && PresenceOps(ctx, user, presence)[0] == BulkWrite(User, Writes(User, [user], ctx.shardId))
    ensures Presence in ctx.models ==>
      ((exists op :: op in PresenceOps(ctx, user, presence) && op.DeleteOne?) <==> IsOffline(presence))
    ensures Member in ctx.models ==>
      ((exists op :: op in PresenceOps(ctx, user, presence) && op.coll == Member) <==> Truthy(Get(presence, "guild_id")))
  {
    PresenceParts(ctx, user, presence);
    var f := PresenceFilter(ctx, user, presence);
    var ops := PresenceOps(ctx, user, presence);
    CreateOpsShape(ctx, User, [user]);
    CreateOpsShape(ctx, Presence, [PresenceDoc(user, presence)]);
    CreateOpsShape(ctx, Member, [PresenceMemberDoc(user, presence)]);
    if Presence in ctx.models && IsOffline(presence) {
      assert DeleteOne(Presence, f) in ops;
    }
    if Member in ctx.models && Truthy(Get(presence, "guild_id")) {
      assert CreateOps(ctx, Member, [PresenceMemberDoc(user, presence)])[0] in ops;
    }
  }

  // ---------------------------------------------------------------------
  // MESSAGE_CREATE

  /** Where MESSAGE_CREATE's member records come from, in order: the
      author's member with the author, then each mention's member with the
      mentioned user, skipping mentions without a member. */
  ghost function MemberSources(member: Option<Doc>, author: Doc, mentions: seq<Mention>): seq<(Doc, Doc)>
  {
    (if member.Some? then [(member.value, author)] else []) + MentionSources(mentions)
  }

  ghost function MentionSources(mentions: seq<Mention>): seq<(Doc, Doc)>
    decreases |mentions|
  {
    if mentions == [] then []
    else
      var m := mentions[|mentions| - 1];
      MentionSources(mentions[..|mentions| - 1]) + (if m.member.Some? then [(m.member.value, m.user)] else [])
  }

  /** Every mention source is a mention's own member with its own user. */
  lemma {:induction false} MentionSourcesFrom(mentions: seq<Mention>)
    ensures |MentionSources(mentions)| <= |mentions|
    ensures forall p :: p in MentionSources(mentions) ==>
      exists i :: 0 <= i < |mentions| && mentions[i].member == Some(p.0) && mentions[i].user == p.1
    decreases |mentions|
  {
    if mentions != [] {
      var n := |mentions| - 1;
      var init := mentions[..n];
      MentionSourcesFrom(init);
      forall p | p in MentionSources(mentions)
        ensures exists i :: 0 <= i < |mentions| && mentions[i].member == Some(p.0) && mentions[i].user == p.1
      {
        if p in MentionSources(init) {
          var i :| 0 <= i < |init| && init[i].member == Some(p.0) && init[i].user == p.1;
          assert mentions[i] == init[i];
        } else {
          assert mentions[n].member == Some(p.0) && mentions[n].user == p.1;
        }
      }
    }
  }

  /** The users are the author then each mention's user, in order. The
      members are, position by position, the payloads of `MemberSources`,
      each given the message's guild and the id of the user it came with. */
  lemma {:induction false} MessageRecordsShape(guildId: Value, author: Doc, member: Option<Doc>, mentions: seq<Mention>)
    ensures |MessageUsers(author, mentions)| == |mentions| + 1
    ensures MessageUsers(author, mentions)[0] == author
    ensures forall i :: 0 <= i < |mentions| ==> MessageUsers(author, mentions)[i + 1] == mentions[i].user
    ensures |MessageMembers(guildId, author, member, mentions)| == |MemberSources(member, author, mentions)| <= |mentions| + 1
    ensures forall j :: 0 <= j < |MemberSources(member, author, mentions)| ==>
      MessageMembers(guildId, author, member, mentions)[j] ==
        MemberSources(member, author, mentions)[j].0["guild_id" := guildId]["user_id" := Get(MemberSources(member, author, mentions)[j].1, "id")]
    ensures forall r :: r in MessageMembers(guildId, author, member, mentions) ==>
      Get(r, "guild_id") == guildId &&
      exists u :: u in MessageUsers(author, mentions) && Get(r, "user_id") == Get(u, "id")
    decreases |mentions|
  {
    MentionSourcesFrom(mentions);
    if mentions != [] {
      var n := |mentions| - 1;
      var init := mentions[..n];
      MessageRecordsShape(guildId, author, member, init);
      var users := MessageUsers(author, mentions);
      assert users == MessageUsers(author, init) + [mentions[n].user];
      forall i | 0 <= i < |mentions| ensures users[i + 1] == mentions[i].user {
        if i < n {
          assert init[i] == mentions[i];
        }
      }
      var members := MessageMembers(guildId, author, member, mentions);
      var src := MemberSources(member, author, mentions);
      var head: seq<(Doc, Doc)> := if member.Some? then [(member.value, author)] else [];
      var last: seq<(Doc, Doc)> := if mentions[n].member.Some? then [(mentions[n].member.value, mentions[n].user)] else [];
      assert members == MessageMembers(guildId, author, member, init) + MentionMember(guildId, mentions[n]);
      assert src == MemberSources(member, author, init) + last by {
        assert MentionSources(mentions) == MentionSources(init) + last;
        assert src == head + (MentionSources(init) + last);
        assert MemberSources(member, author, init) == head + MentionSources(init);
      }
      forall j | 0 <= j < |src|
        ensures members[j] == src[j].0["guild_id" := guildId]["user_id" := Get(src[j].1, "id")]
      {
        if j < |MemberSources(member, author, init)| {
          assert src[j] == MemberSources(member, author, init)[j];
        }
      }
      forall r | r in members
        ensures Get(r, "guild_id") == guildId
        ensures exists u :: u in users && Get(r, "user_id") == Get(u, "id")
      {
        if r in MessageMembers(guildId, author, member, init) {
          var u :| u in MessageUsers(author, init) && Get(r, "user_id") == Get(u, "id");
          assert u in users;
        } else {
          assert r in MentionMember(guildId, mentions[n]);
          assert mentions[n].user in users;
        }
      }
    }
  }

  /** MESSAGE_CREATE writes the members, then the users, and nothing else. */
  lemma MessageCreateOrder(ctx: Ctx, guildId: Value, author: Doc, member: Option<Doc>, mentions: seq<Mention>)
    ensures Dispatch(ctx, MessageCreate(guildId, author, member, mentions)) ==
      On(Dispatch(ctx, MessageCreate(guildId, author, member, mentions)), Member) +
      On(Dispatch(ctx, MessageCreate(guildId, author, member, mentions)), User)
    ensures forall op :: op in Dispatch(ctx, MessageCreate(guildId, author, member, mentions)) ==> op.BulkWrite?
  {
    var m := CreateOps(ctx, Member, MessageMembers(guildId, author, member, mentions));
    var u := CreateOps(ctx, User, MessageUsers(author, mentions));
    CreateOpsShape(ctx, Member, MessageMembers(guildId, author, member, mentions));
    CreateOpsShape(ctx, User, MessageUsers(author, mentions));
    CreateWellFormed(ctx, Member, MessageMembers(guildId, author, member, mentions));
    CreateWellFormed(ctx, User, MessageUsers(author, mentions));
    var ops := m + u;
    assert Dispatch(ctx, MessageCreate(guildId, author, member, mentions)) == ops;
    OnConcat(m, u, Member);
    OnConcat(m, u, User);
    OnAll(m, Member);
    OnAll(u, User);
    OnOther(u, Member);
    OnOther(m, User);
  }

  // ---------------------------------------------------------------------
  // VOICE_STATE_UPDATE

  /** VOICE_STATE_UPDATE after the voice state: the member's user and the
      member, if the payload has a member. */
  function VoiceMemberOps(ctx: Ctx, voiceState: Doc, member: Option<WithUser>): seq<Op>
  {
    match member
    case None => []
    case Some(m) => CreateOps(ctx, User, [m.user]) + CreateOps(ctx, Member, [VoiceMemberDoc(voiceState, m)])
  }

  lemma VoiceParts(ctx: Ctx, voiceState: Doc, member: Option<WithUser>)
    ensures VoiceStateOps(ctx, voiceState, member) ==
      [] + CreateOps(ctx, VoiceState, [voiceState["server_id" := ServerId(voiceState)]]) + VoiceMemberOps(ctx, voiceState, member)
    ensures forall op :: op in VoiceStateOps(ctx, voiceState, member) ==> op.BulkWrite?
    ensures forall op :: op in VoiceMemberOps(ctx, voiceState, member) ==> op.coll != VoiceState
  {
    if member.Some? {
      CreateWellFormed(ctx, User, [member.value.user]);
      CreateWellFormed(ctx, Member, [VoiceMemberDoc(voiceState, member.value)]);
      CreateOpsShape(ctx, User, [member.value.user]);
      CreateOpsShape(ctx, Member, [VoiceMemberDoc(voiceState, member.value)]);
    }
    CreateOpsShape(ctx, VoiceState, [voiceState["server_id" := ServerId(voiceState)]]);
  }

  /** A held item has a record of the shard with the item's writer-key
      values. */
  lemma HeldRecord(docs: seq<Doc>, c: Coll, item: Doc, s: int)
    requires Holds(docs, c, item, s)
    ensures exists r :: r in docs && InShard(r, s) && forall k :: k in WriterKey(c) ==> Get(r, k) == Get(item, k)
  {
    var w := WriteOf(c, item, s);
    var j :| 0 <= j < |docs| && Matches(docs[j], w.filter) && Carries(docs[j], w.update);
    assert Get(docs[j], ShardField) == Num(s);
    forall k | k in WriterKey(c) ensures Get(docs[j], k) == Get(item, k) {
      assert k in w.filter;
    }
    assert docs[j] in docs;
  }

  /** VOICE_STATE_UPDATE only ever upserts: the voice state is held under its
      server (the guild, or the channel without one) and its user, even when
      the user has left every channel. */
  lemma VoiceStateStored(st: Store, ctx: Ctx, voiceState: Doc, member: Option<WithUser>)
    requires VoiceState in st && VoiceState in ctx.models
    ensures forall op :: op in VoiceStateOps(ctx, voiceState, member) ==> op.BulkWrite?
    ensures VoiceState in Apply(st, VoiceStateOps(ctx, voiceState, member))
    ensures Holds(Apply(st, VoiceStateOps(ctx, voiceState, member))[VoiceState], VoiceState,
                  voiceState["server_id" := ServerId(voiceState)], ctx.shardId)
    ensures exists r :: (r in Apply(st, VoiceStateOps(ctx, voiceState, member))[VoiceState] &&
      InShard(r, ctx.shardId) && Get(r, "user_id") == Get(voiceState, "user_id") &&
      Get(r, "server_id") == (if Truthy(Get(voiceState, "guild_id")) then Get(voiceState, "guild_id") else Get(voiceState, "channel_id")))
  {
    var v := voiceState["server_id" := ServerId(voiceState)];
    VoiceParts(ctx, voiceState, member);
    StoresThrough(st, ctx, VoiceState, [v], 0, [], VoiceMemberOps(ctx, voiceState, member));
    HeldRecord(Apply(st, VoiceStateOps(ctx, voiceState, member))[VoiceState], VoiceState, v, ctx.shardId);
    assert "server_id" in WriterKey(VoiceState) && "user_id" in WriterKey(VoiceState);
  }

  // ---------------------------------------------------------------------
  // Records whose writer key the payload does not supply

  /** Two items lacking every field of the writer's key get the same filter,
      so the second upsert merges into the first one's record. */
  lemma UnkeyedItemsShareFilter(c: Coll, a: Doc, b: Doc, s: int)
    requires forall k :: k in WriterKey(c) ==> k !in a && k !in b
    ensures WriteOf(c, a, s).filter == WriteOf(c, b, s).filter
  {
    var fa := WriteOf(c, a, s).filter;
    var fb := WriteOf(c, b, s).filter;
    assert forall k :: k in fa <==> k in fb;
    assert forall k :: k in fa ==> fa[k] == fb[k];
  }

  /** GUILD_MEMBERS_CHUNK tags members with `guild_id` but not `user_id`,
      and presences with `guild_id` but not `cache_id` or `user_id`: two
      members whose payloads lack `user_id` are written to one record, and
      so are any two presences lacking those fields. */
  lemma ChunkRecordsCollapse(ctx: Ctx, guildId: Value, members: seq<WithUser>, presences: seq<Doc>, i: nat, j: nat)
    ensures i < |members| && j < |members| && "user_id" !in members[i].fields && "user_id" !in members[j].fields ==>
      Writes(Member, TagAll("guild_id", guildId, FieldsOf(members)), ctx.shardId)[i].filter ==
      Writes(Member, TagAll("guild_id", guildId, FieldsOf(members)), ctx.shardId)[j].filter
    ensures (i < |presences| && j < |presences| &&
             forall k :: k in WriterKey(Presence) ==> k !in presences[i] && k !in presences[j]) ==>
      Writes(Presence, TagAll("guild_id", guildId, presences), ctx.shardId)[i].filter ==
      Writes(Presence, TagAll("guild_id", guildId, presences), ctx.shardId)[j].filter
  {
    var ms := TagAll("guild_id", guildId, FieldsOf(members));
    if i < |members| && j < |members| && "user_id" !in members[i].fields && "user_id" !in members[j].fields {
      var fi := WriteOf(Member, ms[i], ctx.shardId).filter;
      var fj := WriteOf(Member, ms[j], ctx.shardId).filter;
      assert forall k :: k in fi <==> k in fj;
      assert forall k :: k in fi ==> fi[k] == fj[k];
    }
    var ps := TagAll("guild_id", guildId, presences);
    if i < |presences| && j < |presences| && (forall k :: k in WriterKey(Presence) ==> k !in presences[i] && k !in presences[j]) {
      UnkeyedItemsShareFilter(Presence, ps[i], ps[j], ctx.shardId);
    }
  }

  /** READY caches its presences under `"@me"` but does not add `user_id`:
      two presences whose payloads lack `user_id` are written to one
      record. */
  lemma ReadyPresencesCollapse(ctx: Ctx, presences: seq<Doc>, i: nat, j: nat)
    requires i < |presences| && j < |presences|
    requires "user_id" !in presences[i] && "user_id" !in presences[j]
    ensures Writes(Presence, TagAll("cache_id", Str(SelfCache), presences), ctx.shardId)[i].filter ==
      Writes(Presence, TagAll("cache_id", Str(SelfCache), presences), ctx.shardId)[j].filter
  {
    var ps := TagAll("cache_id", Str(SelfCache), presences);
    var fi := WriteOf(Presence, ps[i], ctx.shardId).filter;
    var fj := WriteOf(Presence, ps[j], ctx.shardId).filter;
    assert forall k :: k in fi <==> k in fj;
    assert forall k :: k in fi ==> fi[k] == fj[k];
  }

  /** CHANNEL_PINS_UPDATE upserts its payload as a channel, filtered by `id`;
      two pins updates whose payloads carry no `id` write one record. */
  lemma PinsUpdatesCollapse(ctx: Ctx, a: Doc, b: Doc)
    requires "id" !in a && "id" !in b
    requires Channel in ctx.models
    ensures Dispatch(ctx, ChannelPinsUpdate(a))[0].writes[0].filter == Dispatch(ctx, ChannelPinsUpdate(b))[0].writes[0].filter
  {
    UnkeyedItemsShareFilter(Channel, a, b, ctx.shardId);
  }
}
