/** The gateway handler: it drops every packet that is not a dispatch, every
    dispatch whose event name is disabled, and every event without a handler;
    each remaining event becomes a fixed list of store operations on the
    shard's records. */
module GatewayHandler {
  import opened Wrappers
  import opened Schemas
  import opened DocumentStore
  import opened Mock
  import opened CreationTools

  /** The DISPATCH opcode of the Discord gateway protocol. */
  const DispatchOp: int := 0

  /** The presence status that deletes a presence record. */
  const Offline: string := "offline"

  /** The cache id of presences that belong to no guild. */
  const SelfCache: string := "@me"

  // ---------------------------------------------------------------------
  // Events

  /** A user mentioned in a message, with the member object it may carry. */
  datatype Mention = Mention(user: Doc, member: Option<Doc>)

  /** The dispatch events with a handler, each with the parts of its payload
      the handler reads; `Unknown` is any other event name. */
  datatype Event =
    | Ready(user: Doc, privateChannels: seq<Doc>, guilds: seq<RawGuild>, presences: seq<Doc>)
    | ChannelCreate(channel: Doc)
    | ChannelDelete(channel: Doc)
    | ChannelPinsUpdate(channel: Doc)
    | ChannelUpdate(channel: Doc)
    | GuildCreate(guild: RawGuild)
    | GuildDelete(deleted: Doc)
    | GuildEmojisUpdate(guildId: Value, emojis: seq<Doc>)
    | GuildMemberAdd(added: WithUser)
    | GuildMemberRemove(guildId: Value, user: Doc)
    | GuildMemberUpdate(updated: WithUser)
    | GuildMembersChunk(guildId: Value, members: seq<WithUser>, presences: seq<Doc>)
    | GuildRoleCreate(guildId: Value, role: Doc)
    | GuildRoleDelete(guildId: Value, roleId: Value)
    | GuildRoleUpdate(guildId: Value, role: Doc)
    | GuildUpdate(guild: RawGuild)
    | MessageCreate(guildId: Value, author: Doc, authorMember: Option<Doc>, mentions: seq<Mention>)
    | PresenceUpdate(user: Doc, presence: Doc)
    | TypingStart(guildId: Value, member: Option<WithUser>)
    | UserUpdate(user: Doc)
    | VoiceStateUpdate(voiceState: Doc, member: Option<WithUser>)
    | Unknown(name: string)

  /** The event name a packet carries in `t`. */
  function Name(e: Event): string
  {
    match e
    case Ready(_, _, _, _) => "READY"
    case ChannelCreate(_) => "CHANNEL_CREATE"
    case ChannelDelete(_) => "CHANNEL_DELETE"
    case ChannelPinsUpdate(_) => "CHANNEL_PINS_UPDATE"
    case ChannelUpdate(_) => "CHANNEL_UPDATE"
    case GuildCreate(_) => "GUILD_CREATE"
    case GuildDelete(_) => "GUILD_DELETE"
    case GuildEmojisUpdate(_, _) => "GUILD_EMOJIS_UPDATE"
    case GuildMemberAdd(_) => "GUILD_MEMBER_ADD"
    case GuildMemberRemove(_, _) => "GUILD_MEMBER_REMOVE"
    case GuildMemberUpdate(_) => "GUILD_MEMBER_UPDATE"
    case GuildMembersChunk(_, _, _) => "GUILD_MEMBERS_CHUNK"
    case GuildRoleCreate(_, _) => "GUILD_ROLE_CREATE"
    case GuildRoleDelete(_, _) => "GUILD_ROLE_DELETE"
    case GuildRoleUpdate(_, _) => "GUILD_ROLE_UPDATE"
    case GuildUpdate(_) => "GUILD_UPDATE"
    case MessageCreate(_, _, _, _) => "MESSAGE_CREATE"
    case PresenceUpdate(_, _) => "PRESENCE_UPDATE"
    case TypingStart(_, _) => "TYPING_START"
    case UserUpdate(_) => "USER_UPDATE"
    case VoiceStateUpdate(_, _) => "VOICE_STATE_UPDATE"
    case Unknown(name) => name
  }

  /** The event names that have a handler. */
  const HandledNames: set<string> := {
    "READY", "CHANNEL_CREATE", "CHANNEL_DELETE", "CHANNEL_PINS_UPDATE", "CHANNEL_UPDATE",
    "GUILD_CREATE", "GUILD_DELETE", "GUILD_EMOJIS_UPDATE", "GUILD_MEMBER_ADD",
    "GUILD_MEMBER_REMOVE", "GUILD_MEMBER_UPDATE", "GUILD_MEMBERS_CHUNK", "GUILD_ROLE_CREATE",
    "GUILD_ROLE_DELETE", "GUILD_ROLE_UPDATE", "GUILD_UPDATE", "MESSAGE_CREATE",
    "PRESENCE_UPDATE", "TYPING_START", "USER_UPDATE", "VOICE_STATE_UPDATE"}

  /** An event as a packet's `t` selects it: `Unknown` only carries a name
      with no handler, since a handled name always reaches its handler. */
  predicate Parsed(e: Event)
  {
    e.Unknown? ==> e.name !in HandledNames
  }

  /** On parsed events the name alone tells whether the event has a handler. */
  lemma HandledNamesExact(e: Event)
    ensures !e.Unknown? ==> Name(e) in HandledNames
    ensures Parsed(e) ==> (Name(e) in HandledNames <==> !e.Unknown?)
  {
  }

  /** A gateway packet: its opcode and its dispatch event. */
  datatype Packet = Packet(op: int, event: Event)

  // ---------------------------------------------------------------------
  // The handler and its options

  /** The options the handler reads: the disabled event names (absent is
      empty) and `loadAllMembers`, which may be absent. */
  datatype Options = Options(disabledEvents: seq<string>, loadAllMembers: Option<bool>)

  datatype Handler = Handler(disabledEvents: set<string>, loadAllMembers: bool)

  function UpperChar(c: char): char
  {
    if 'a' <= c <= 'z' then (c as int - 'a' as int + 'A' as int) as char else c
  }

  /** Upper-casing, on the ASCII letters. */
  function UpperCase(s: string): (r: string)
    ensures |r| == |s| && forall i :: 0 <= i < |s| ==> r[i] == UpperChar(s[i])
  {
    seq(|s|, i requires 0 <= i < |s| => UpperChar(s[i]))
  }

  /** The constructor: the disabled names upper-cased into a set, and
      `loadAllMembers` coerced to a boolean. */
  function NewHandler(opts: Options): (h: Handler)
    ensures forall n :: n in h.disabledEvents <==> exists v :: v in opts.disabledEvents && n == UpperCase(v)
    ensures h.loadAllMembers <==> opts.loadAllMembers == Some(true)
  {
    Handler(set v | v in opts.disabledEvents :: UpperCase(v), opts.loadAllMembers == Some(true))
  }

  function ShouldLoadAllMembers(h: Handler, guildSubscriptions: bool): bool
  {
    h.loadAllMembers && guildSubscriptions
  }

  /** Whether to load all members is decided by the option and the
      gateway's guild subscriptions together. */
  lemma LoadAllMembersIff(opts: Options, guildSubscriptions: bool)
    ensures ShouldLoadAllMembers(NewHandler(opts), guildSubscriptions) <==>
      opts.loadAllMembers == Some(true) && guildSubscriptions
  {
  }

  lemma UpperCaseIdempotent(s: string)
    ensures UpperCase(UpperCase(s)) == UpperCase(s)
  {
  }

  /** An event name is disabled however the option spelled its letters, and
      a name with a lower-case letter is never disabled. */
  lemma DisabledIgnoresCase(opts: Options, v: string, n: string)
    ensures v in opts.disabledEvents && UpperCase(v) == UpperCase(n) && n == UpperCase(n) ==>
      n in NewHandler(opts).disabledEvents
    ensures (exists i :: 0 <= i < |n| && 'a' <= n[i] <= 'z') ==> n !in NewHandler(opts).disabledEvents
  {
    if exists i :: 0 <= i < |n| && 'a' <= n[i] <= 'z' {
      var i :| 0 <= i < |n| && 'a' <= n[i] <= 'z';
      forall w | w in opts.disabledEvents ensures n != UpperCase(w) {
        if |w| == |n| {
          assert UpperCase(w)[i] == UpperChar(w[i]);
        }
      }
    }
  }

  // ---------------------------------------------------------------------
  // Single operations

  function DeleteOneIf(ctx: Ctx, c: Coll, f: Filter): seq<Op>
  {
    if c in ctx.models then [DeleteOne(c, f)] else []
  }

  function DeleteManyIf(ctx: Ctx, c: Coll, f: Filter): seq<Op>
  {
    if c in ctx.models then [DeleteMany(c, f)] else []
  }

  /** `Guild.updateOne({id, _shardId}, {$inc: {count: amount}})`. */
  function CountIf(ctx: Ctx, guildId: Value, amount: int): seq<Op>
  {
    if Guild in ctx.models then [IncrementOne(Guild, IdFilter(ctx, guildId), "count", amount)] else []
  }

  function IdFilter(ctx: Ctx, id: Value): Filter
  {
    map["id" := id, ShardField := Num(ctx.shardId)]
  }

  function GuildFilter(ctx: Ctx, guildId: Value): Filter
  {
    map["guild_id" := guildId, ShardField := Num(ctx.shardId)]
  }

  // ---------------------------------------------------------------------
  // The per-event handlers

  /** GUILD_DELETE of a guild that is gone: the guild record, then every
      record of the guild in the six collections that carry `guild_id`. */
  function Cascade(ctx: Ctx, guildId: Value): seq<Op>
  {
    DeleteOneIf(ctx, Guild, IdFilter(ctx, guildId)) + GuildRecords(ctx, guildId)
  }

  /** The collections whose records carry `guild_id`. */
  const GuildScoped: set<Coll> := {Channel, Emoji, Member, Presence, Role, VoiceState}

  function GuildRecords(ctx: Ctx, guildId: Value): seq<Op>
  {
    DeleteManyIf(ctx, Channel, GuildFilter(ctx, guildId)) +
    DeleteManyIf(ctx, Emoji, GuildFilter(ctx, guildId)) +
    DeleteManyIf(ctx, Member, GuildFilter(ctx, guildId)) +
    DeleteManyIf(ctx, Presence, GuildFilter(ctx, guildId)) +
    DeleteManyIf(ctx, Role, GuildFilter(ctx, guildId)) +
    DeleteManyIf(ctx, VoiceState, GuildFilter(ctx, guildId))
  }

  function TagAll(key: string, v: Value, docs: seq<Doc>): (r: seq<Doc>)
    ensures |r| == |docs| && forall i :: 0 <= i < |docs| ==> r[i] == docs[i][key := v]
  {
    seq(|docs|, i requires 0 <= i < |docs| => docs[i][key := v])
  }

  function UsersOf(members: seq<WithUser>): (r: seq<Doc>)
    ensures |r| == |members| && forall i :: 0 <= i < |members| ==> r[i] == members[i].user
  {
    seq(|members|, i requires 0 <= i < |members| => members[i].user)
  }

  function FieldsOf(members: seq<WithUser>): (r: seq<Doc>)
    ensures |r| == |members| && forall i :: 0 <= i < |members| ==> r[i] == members[i].fields
  {
    seq(|members|, i requires 0 <= i < |members| => members[i].fields)
  }

  /** A member payload with its user's id as `user_id`. */
  function MemberDoc(m: WithUser): Doc
  {
    m.fields["user_id" := UserId(m)]
  }

  /** The presence scope: the guild id, or `"@me"` without a guild. */
  function CacheId(presence: Doc): Value
  {
    if Truthy(Get(presence, "guild_id")) then Get(presence, "guild_id") else Str(SelfCache)
  }

  function IsOffline(presence: Doc): bool
  {
    Get(presence, "status") == Str(Offline)
  }

  /** The presence payload scoped and tagged with its user. */
  function PresenceDoc(user: Doc, presence: Doc): Doc
  {
    presence["cache_id" := CacheId(presence)]["user_id" := Get(user, "id")]
  }

  function PresenceFilter(ctx: Ctx, user: Doc, presence: Doc): Filter
  {
    map["cache_id" := CacheId(presence), "user_id" := Get(user, "id"), ShardField := Num(ctx.shardId)]
  }

  /** The member PRESENCE_UPDATE writes: the same payload object, which the
      presence branch has already tagged unless the status was offline. */
  function PresenceMemberDoc(user: Doc, presence: Doc): Doc
  {
    var base := if IsOffline(presence) then presence else PresenceDoc(user, presence);
    base["guild_id" := Get(presence, "guild_id")]["user_id" := Get(user, "id")]
  }

  function PresenceOps(ctx: Ctx, user: Doc, presence: Doc): seq<Op>
  {
    CreateOps(ctx, User, [user]) +
    (if IsOffline(presence) then DeleteOneIf(ctx, Presence, PresenceFilter(ctx, user, presence))
     else CreateOps(ctx, Presence, [PresenceDoc(user, presence)])) +
    (if Truthy(Get(presence, "guild_id")) then CreateOps(ctx, Member, [PresenceMemberDoc(user, presence)]) else [])
  }

  /** The users MESSAGE_CREATE writes: the author, then every mention. */
  function MessageUsers(author: Doc, mentions: seq<Mention>): seq<Doc>
    decreases |mentions|
  {
    if mentions == [] then [author]
    else MessageUsers(author, mentions[..|mentions| - 1]) + [mentions[|mentions| - 1].user]
  }

  function MentionMember(guildId: Value, m: Mention): seq<Doc>
  {
    match m.member
    case None => []
    case Some(doc) => [doc["guild_id" := guildId]["user_id" := Get(m.user, "id")]]
  }

  /** The members MESSAGE_CREATE writes: the author's, then each mention's,
      skipping those without one. */
  function MessageMembers(guildId: Value, author: Doc, member: Option<Doc>, mentions: seq<Mention>): seq<Doc>
    decreases |mentions|
  {
    if mentions == [] then
      (match member
       case None => []
       case Some(doc) => [doc["guild_id" := guildId]["user_id" := Get(author, "id")]])
    else MessageMembers(guildId, author, member, mentions[..|mentions| - 1]) + MentionMember(guildId, mentions[|mentions| - 1])
  }

  /** The users-and-members loop of MESSAGE_CREATE. */
  method CollectMessageRecords(guildId: Value, author: Doc, member: Option<Doc>, mentions: seq<Mention>)
    returns (users: seq<Doc>, members: seq<Doc>)
    ensures users == MessageUsers(author, mentions)
    ensures members == MessageMembers(guildId, author, member, mentions)
  {
    members := [];
    users := [author];
    if member.Some? {
      members := members + [member.value["guild_id" := guildId]["user_id" := Get(author, "id")]];
    }
    for i := 0 to |mentions|
      invariant users == MessageUsers(author, mentions[..i])
      invariant members == MessageMembers(guildId, author, member, mentions[..i])
    {
      assert mentions[..i + 1][..i] == mentions[..i];
      var mention := mentions[i];
      users := users + [mention.user];
      if mention.member.Some? {
        members := members + [mention.member.value["guild_id" := guildId]["user_id" := Get(mention.user, "id")]];
      }
    }
    assert mentions[..|mentions|] == mentions;
  }

  /** MESSAGE_CREATE as issued: its member records, then its users. */
  method MessageCreateOps(ctx: Ctx, guildId: Value, author: Doc, member: Option<Doc>, mentions: seq<Mention>)
    returns (ops: seq<Op>)
    ensures ops == Dispatch(ctx, MessageCreate(guildId, author, member, mentions))
  {
    var users, members := CollectMessageRecords(guildId, author, member, mentions);
    var m := CreateRecords(ctx, Member, members);
    var u := CreateRecords(ctx, User, users);
    ops := m + u;
  }

  /** The voice state scope: the guild, or the channel without a guild. */
  function ServerId(voiceState: Doc): Value
  {
    if Truthy(Get(voiceState, "guild_id")) then Get(voiceState, "guild_id") else Get(voiceState, "channel_id")
  }

  function VoiceMemberDoc(voiceState: Doc, m: WithUser): Doc
  {
    var gid := Get(voiceState, "guild_id");
    (if Truthy(gid) then m.fields["guild_id" := gid] else m.fields)["user_id" := UserId(m)]
  }

  /** The voice state under its server, then the member's user and the
      member, if the payload has a member. */
  function VoiceStateOps(ctx: Ctx, voiceState: Doc, member: Option<WithUser>): seq<Op>
  {
    CreateOps(ctx, VoiceState, [voiceState["server_id" := ServerId(voiceState)]]) +
    (match member
     case None => []
     case Some(m) => CreateOps(ctx, User, [m.user]) + CreateOps(ctx, Member, [VoiceMemberDoc(voiceState, m)]))
  }

  /** The operations each event issues, in order. */
  function Dispatch(ctx: Ctx, e: Event): seq<Op>
  {
    match e
    case Ready(user, privateChannels, guilds, presences) =>
      ResetOps(ctx) + ReadyWrites(ctx, user, privateChannels, guilds, presences)
    case ChannelCreate(channel) => CreateOps(ctx, Channel, [channel])
    case ChannelDelete(channel) => DeleteOneIf(ctx, Channel, IdFilter(ctx, Get(channel, "id")))
    case ChannelPinsUpdate(channel) => CreateOps(ctx, Channel, [channel])
    case ChannelUpdate(channel) => CreateOps(ctx, Channel, [channel])
    case GuildCreate(guild) => RawGuildsOps(ctx, [guild])
    case GuildDelete(guild) =>
      if Truthy(Get(guild, "unavailable")) then CreateOps(ctx, Guild, [guild])
      else Cascade(ctx, Get(guild, "id"))
    case GuildEmojisUpdate(guildId, emojis) =>
      DeleteManyIf(ctx, Emoji, GuildFilter(ctx, guildId)) +
      CreateOps(ctx, Emoji, TagAll("guild_id", guildId, emojis))
    case GuildMemberAdd(member) =>
      CountIf(ctx, Get(member.fields, "guild_id"), 1) +
      CreateOps(ctx, User, [member.user]) + CreateOps(ctx, Member, [MemberDoc(member)])
    case GuildMemberRemove(guildId, user) =>
      CountIf(ctx, guildId, -1) +
      DeleteOneIf(ctx, Member, map["guild_id" := guildId, "id" := Get(user, "id"), ShardField := Num(ctx.shardId)])
    case GuildMemberUpdate(member) =>
      CreateOps(ctx, User, [member.user]) + CreateOps(ctx, Member, [MemberDoc(member)])
    case GuildMembersChunk(guildId, members, presences) =>
      CreateOps(ctx, User, UsersOf(members)) +
      CreateOps(ctx, Member, TagAll("guild_id", guildId, FieldsOf(members))) +
      CreateOps(ctx, Presence, TagAll("guild_id", guildId, presences))
    case GuildRoleCreate(guildId, role) => CreateOps(ctx, Role, [role["guild_id" := guildId]])
    case GuildRoleDelete(guildId, roleId) =>
      DeleteOneIf(ctx, Role, map["guild_id" := guildId, "id" := roleId, ShardField := Num(ctx.shardId)])
    case GuildRoleUpdate(guildId, role) => CreateOps(ctx, Role, [role["guild_id" := guildId]])
    case GuildUpdate(guild) => RawGuildsOps(ctx, [guild])
    case MessageCreate(guildId, author, member, mentions) =>
      CreateOps(ctx, Member, MessageMembers(guildId, author, member, mentions)) +
      CreateOps(ctx, User, MessageUsers(author, mentions))
    case PresenceUpdate(user, presence) => PresenceOps(ctx, user, presence)
    case TypingStart(guildId, member) =>
      (match member
       case None => []
       case Some(m) =>
         CreateOps(ctx, User, [m.user]) +
         CreateOps(ctx, Member, [m.fields["guild_id" := guildId]["user_id" := UserId(m)]]))
    case UserUpdate(user) => CreateOps(ctx, User, [user])
    case VoiceStateUpdate(voiceState, member) => VoiceStateOps(ctx, voiceState, member)
    case Unknown(_) => []
  }

  /** READY after its reset: the current user, the private channels, the
      raw guilds, then the presences, each cached under `"@me"`. */
  function ReadyWrites(ctx: Ctx, user: Doc, privateChannels: seq<Doc>, guilds: seq<RawGuild>, presences: seq<Doc>): seq<Op>
  {
    CreateOps(ctx, User, [user]) + CreateOps(ctx, Channel, privateChannels) +
    RawGuildsOps(ctx, guilds) + CreateOps(ctx, Presence, TagAll("cache_id", Str(SelfCache), presences))
  }

  /** `onPacket`: only dispatches of enabled events reach their handler. */
  function OnPacket(h: Handler, ctx: Ctx, p: Packet): seq<Op>
  {
    if p.op != DispatchOp then []
    else if Name(p.event) in h.disabledEvents then []
    else Dispatch(ctx, p.event)
  }

  /** The store after a packet's operations have run. */
  function Handle(st: Store, h: Handler, ctx: Ctx, p: Packet): Store
  {
    Apply(st, OnPacket(h, ctx, p))
  }
}
