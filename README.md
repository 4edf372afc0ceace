# proxy-gateway, modelled in Dafny

This project models the core of detritusjs/proxy-gateway. The library keeps a MongoDB cache of a Discord bot's state. Each shard's gateway packets are turned into writes on shared collections, and every record is tagged with the shard (`_shardId`) that wrote it. Shards are grouped into clusters, and the clusters into forked processes. The model covers five parts:

- **The event reducer.** The gateway handler and the `createX` writers are modelled in `handler.dfy`, `creationtools.dfy` and `handlerproperties.dfy`. The document store (`documentstore.dfy`) is one sequence of documents per registered collection. It gives `updateOne` with upsert, `deleteOne`, `deleteMany` and `$inc` their MongoDB meaning: the first match, all matches, a missing field counting from zero. Each event is a closed datatype. Each handler is a function from the event to the operations it issues, in order, and `Apply` runs those operations against the store. The loops of the source are methods proved equal to those functions: every `createX`, the nested loops of `createRawGuilds`, and the loop of `MESSAGE_CREATE`. `schemas.dfy` holds each collection's declared unique index.
- **The lockable FIFO bucket** (`bucket.dfy`): a class with a queue and the `locked`/`flushing` flags, and a log of the functions it has run.
- **The shard and cluster topology** (`proxycluster.dfy`, `mockgatewaycluster.dfy`, `proxyclustermanager.dfy`):
  - how the shard count and range are resolved and validated;
  - the shard loops of the two clusters, with their sleeps;
  - the manager's partition of the shard range into chunks, one forked process per chunk;
  - the run-once and kill-only-after-run flags.
  Elapsed times, the counts and urls fetched over REST, and the process environment are parameters.
- **The cluster process supervisor** (`process.dfy`):
  - the child handle;
  - the overlay that builds the child's environment;
  - how IPC messages map to events;
  - `run` with `wait` and a timeout, and `send`/`sendIPC`.
  The channel's answers and the respawn's outcome are parameters.
- **The shard proxy** (`proxy.dfy`): the token check, `reset` wiping this shard's records, `kill`, and a `run` that happens once. `mock.dfy` holds the reset's operations, which READY also issues. `numbers.dfy` models `String(n)`, unary `+` and `||` on numbers.

The model follows the code where the code and the library's description differ. The following are modelled as written:
- **The handler's `mock` is the shard proxy.** So READY's `reset` is `ShardProxy.reset`: one `deleteMany({_shardId})` per registered model, over the eight model names.
- **Presence writes do not match the declared index.** Presence writers filter on `cache_id`, but the declared unique index and the GUILD_DELETE cascade use `guild_id`.
- **GUILD_MEMBER_REMOVE filters on `id`.** Member records are written with `user_id`, so the filter matches none of them.
- **GUILD_MEMBER_ADD/REMOVE issue `$inc` on `count`.** This is the operation the code sends; the schema's field is `member_count`. What the database ends up holding after schema casting is a separate matter (see "## Left out").
- **The emoji filter omits `guild_id`.**
- **The manager's sleep** after a chunk is `delay * (chunkEnd - chunkStart)`; the commented-out clamp is not applied.
- **The mock cluster's calls do not match `MockGateway`:**
  - it calls `MockGateway.run(url, mongoUrl)` with the database url as the gateway url and its run options as the database url;
  - it sleeps `delay` between shards unconditionally;
  - its `kill` calls a `kill` that mock gateways do not have, so it fails after a run with shards.
- `NaN`, as produced by unary `+` on a bad string, is modelled as `None`. The empty string reads as 0, as in JavaScript.

## Model

| member | source | states |
|---|---|---|
| GatewayHandler.HandledNamesExact | src/gateway/handler.ts:95-364 | every event with a handler has its name among the 21 handled names, and on parsed events a handled name means a handled event |
| GatewayHandler.NewHandler | src/gateway/handler.ts:36-49 | the disabled set is exactly the upper-cased option names; `loadAllMembers` holds exactly when the option is `true` |
| GatewayHandler.UpperCase | src/gateway/handler.ts:44-46 | upper-casing keeps the length and maps each character on its own |
| GatewayHandler.UpperCaseIdempotent | src/gateway/handler.ts:44-46 | upper-casing twice is upper-casing once |
| GatewayHandler.DisabledIgnoresCase | src/gateway/handler.ts:44-67 | a name is disabled whatever letter case the option used; a name with a lower-case letter is never disabled |
| GatewayHandler.LoadAllMembersIff | src/gateway/handler.ts:55-57 | members are loaded exactly when the option and the gateway's guild subscriptions are both on |
| HandlerProperties.PacketFilter | src/gateway/handler.ts:59-73 | non-dispatch packets, disabled names and unknown events issue nothing, and so does any parsed event whose name has no handler; any other packet issues exactly its event's operations |
| HandlerProperties.DisabledEventIgnored | src/gateway/handler.ts:44-72 | an event named in the disabled option, in any case, issues nothing |
| HandlerProperties.PacketWellFormed | src/gateway/handler.ts:59-73 | every operation of a packet is scoped to the shard, addresses a registered collection and is keyed by its writer's fields |
| HandlerProperties.DispatchWellFormed | src/gateway/handler.ts:95-380 | every event handler issues only well-formed operations |
| HandlerProperties.ReadyWellFormed | src/gateway/handler.ts:95-115 | READY's reset and writes are well formed |
| HandlerProperties.ChunkWellFormed | src/gateway/handler.ts:243-255 | GUILD_MEMBERS_CHUNK's writes are well formed |
| HandlerProperties.MemberAddWellFormed | src/gateway/handler.ts:201-215 | GUILD_MEMBER_ADD's `$inc` and writes are well formed |
| HandlerProperties.MemberUpdateWellFormed | src/gateway/handler.ts:233-241 | GUILD_MEMBER_UPDATE's writes are well formed |
| HandlerProperties.TypingWellFormed | src/gateway/handler.ts:346-357 | TYPING_START's writes are well formed |
| HandlerProperties.VoiceWellFormed | src/gateway/handler.ts:364-380 | VOICE_STATE_UPDATE's writes are well formed |
| HandlerProperties.MessageWellFormed | src/gateway/handler.ts:286-314 | MESSAGE_CREATE's writes are well formed |
| HandlerProperties.PresenceWellFormed | src/gateway/handler.ts:316-344 | PRESENCE_UPDATE's writes and delete are well formed |
| HandlerProperties.GuildDeleteWellFormed | src/gateway/handler.ts:144-185 | both branches of GUILD_DELETE are well formed |
| HandlerProperties.CascadeWellFormed | src/gateway/handler.ts:162-184 | the cascade's deletes are well formed |
| HandlerProperties.EmojisUpdateWellFormed | src/gateway/handler.ts:187-199 | GUILD_EMOJIS_UPDATE's delete and writes are well formed |
| HandlerProperties.PacketIsolated | src/gateway/handler.ts:95-380 | no packet changes another shard's records in any collection, or registers or drops a collection |
| HandlerProperties.PacketKeepsUnique | src/gateway/handler.ts:95-380 | if every collection is unique on its writer's key, it stays so after any packet |
| HandlerProperties.PacketKeepsIndexes | src/schemas.ts:44-382 | under the same assumption, every declared unique index except Presence's still holds after any packet |
| HandlerProperties.ResetThenWritesIdempotent | src/gateway/handler.ts:95-115 | a shard reset followed by well-formed writes has the same effect run twice as run once |
| HandlerProperties.ReadyIdempotent | src/gateway/handler.ts:95-115 | handling the same READY twice leaves the store as handling it once |
| HandlerProperties.ReadyForgetsShard | src/gateway/handler.ts:95-115 | after READY each registered collection is its writes (user, private channels, raw guilds, `@me` presences) applied to the other shards' records alone |
| HandlerProperties.ReadyPresencesCollapse | src/gateway/handler.ts:109-114 | READY's presences get `cache_id` but no `user_id`: two presences without `user_id` get the same filter |
| HandlerProperties.UpsertEventStores | src/gateway/handler.ts:117-362 | CHANNEL_CREATE, CHANNEL_PINS_UPDATE, CHANNEL_UPDATE, GUILD_ROLE_CREATE, GUILD_ROLE_UPDATE and USER_UPDATE leave their record (a role tagged with its guild) held and every other collection as it was |
| HandlerProperties.DeleteEventRemoves | src/gateway/handler.ts:121-274 | CHANNEL_DELETE by `(id, shard)` and GUILD_ROLE_DELETE by `(guild_id, id, shard)`, on a collection unique on the writer's key, remove the record with that key and keep all others; other collections are unchanged |
| HandlerProperties.DeleteTargetKeyed | src/gateway/handler.ts:121-274 | each single-record delete is one `deleteOne` whose filter fields are exactly its collection's writer fields |
| HandlerProperties.PinsUpdatesCollapse | src/gateway/handler.ts:130-134 | two pins updates without an `id` are written to the same channel filter |
| HandlerProperties.GuildDeleteUnavailable | src/gateway/handler.ts:156-161 | an unavailable guild is upserted and held; no other collection changes |
| HandlerProperties.GuildRecordsShape | src/gateway/handler.ts:166-183 | the cascade deletes are `deleteMany` by `(guild_id, shard)`, one for each registered guild-scoped collection |
| HandlerProperties.CascadeShape | src/gateway/handler.ts:162-184 | the cascade is deletes only; outside Guild all filter by the guild; it never touches User |
| HandlerProperties.CascadeGuild | src/gateway/handler.ts:163-165 | on unique guild records, no guild with the id and shard remains and every other guild does |
| HandlerProperties.CascadeScoped | src/gateway/handler.ts:166-183 | no guild-scoped record of the guild and shard remains, every non-matching record survives, and users are untouched |
| HandlerProperties.GuildDeleteCascade | src/gateway/handler.ts:162-184 | GUILD_DELETE of a vanished guild removes the guild and all its scoped records in this shard, keeps every other record and keeps users |
| HandlerProperties.GuildDeleteKeepsCachedPresences | src/gateway/handler.ts:175-177 | a presence record without `guild_id` survives its guild's deletion |
| HandlerProperties.RawGuildPresencesLackGuildId | src/utils/creationtools.ts:269-276 | presences written from a raw guild carry no `guild_id` unless the payload had one |
| HandlerProperties.EmojisOps | src/gateway/handler.ts:187-199 | GUILD_EMOJIS_UPDATE is the wipe of the guild's emojis followed by the upserts of the guild-tagged payload, on Emoji alone |
| HandlerProperties.EmojiHeld | src/gateway/handler.ts:195-198 | a payload emoji that no later one duplicates is held, tagged with the guild |
| HandlerProperties.EmojisReplaced | src/gateway/handler.ts:187-199 | afterwards every emoji of the guild in the shard carries a payload emoji, each unrepeated payload emoji is held, and other collections are unchanged |
| HandlerProperties.CountedGuilds | src/gateway/handler.ts:205-207 | the guild records after the count moves are `$inc` of `count` on the guild's first match |
| HandlerProperties.CountRoundTrip | src/gateway/handler.ts:205-223 | `+1` then `-1` on a numeric count restores the guild records |
| HandlerProperties.MemberAddThenRemove | src/gateway/handler.ts:201-231 | a member joining and then leaving leaves the guild records as they were |
| HandlerProperties.MemberAddStores | src/gateway/handler.ts:201-215 | GUILD_MEMBER_ADD holds the user and the member, whose `user_id` is the user's id |
| HandlerProperties.MemberDocKeys | src/gateway/handler.ts:212-213 | a written member has `user_id`, and an `id` only if its payload did |
| HandlerProperties.MemberRemoveOn | src/gateway/handler.ts:224-230 | GUILD_MEMBER_REMOVE's only Member operation is `deleteOne` by `(guild_id, id, shard)` |
| HandlerProperties.MemberRemoveKeepsMembers | src/gateway/handler.ts:225-229 | when no member record has an `id`, no member is removed |
| HandlerProperties.ChunkRecordsCollapse | src/gateway/handler.ts:243-255 | chunk members without `user_id`, and chunk presences without `cache_id`/`user_id`, share one filter each |
| HandlerProperties.PresenceParts | src/gateway/handler.ts:316-344 | PRESENCE_UPDATE is the user write, then the presence write or delete, then the member write, each on its own collection |
| HandlerProperties.PresenceOpsShape | src/gateway/handler.ts:316-344 | the user comes first; there is a delete exactly when the status is offline, and a member write exactly when `guild_id` is set |
| HandlerProperties.PresenceOfflineRemoves | src/gateway/handler.ts:321-330 | an offline presence leaves no record with its cache id, user id and shard, and keeps all others |
| HandlerProperties.PresenceOnlineStores | src/gateway/handler.ts:331-336 | any other presence is held under the guild id (or `@me`) and the user's id |
| HandlerProperties.MentionSourcesFrom | src/gateway/handler.ts:296-305 | each mention source is a mention's own member with its own user, at most one per mention |
| HandlerProperties.MessageRecordsShape | src/gateway/handler.ts:286-308 | the users are the author then each mention in order; the members are, position by position, the author's member (if any) then each mention's member, each payload given the event's `guild_id` and its own user's id |
| HandlerProperties.MessageCreateOrder | src/gateway/handler.ts:310-311 | MESSAGE_CREATE writes members, then users, and only bulk writes |
| HandlerProperties.VoiceParts | src/gateway/handler.ts:364-380 | the voice state write comes first, then writes that do not touch VoiceState; all are upserts |
| HandlerProperties.VoiceStateStored | src/gateway/handler.ts:364-367 | the voice state is held under `guild_id`, or `channel_id` without a guild, and its user; there is no delete path |
| HandlerProperties.UnkeyedItemsShareFilter | src/utils/creationtools.ts:27-31 | two items lacking every writer-key field get the same filter |
| GatewayHandler.TagAll | src/gateway/handler.ts:195-198 | every payload gets the key set, in order |
| GatewayHandler.CollectMessageRecords | src/gateway/handler.ts:286-308 | the loop yields exactly the specified users and members lists |
| GatewayHandler.MessageCreateOps | src/gateway/handler.ts:286-314 | the method issues exactly MESSAGE_CREATE's specified operations |
| CreationTools.WriterFilter | src/utils/creationtools.ts:27-31 | the filter has exactly the writer's fields, the item's key values and the shard id |
| CreationTools.Writes | src/utils/creationtools.ts:26-34 | one upsert per item, in order |
| CreationTools.CreateRecords | src/utils/creationtools.ts:16-40 | the loop issues exactly the specified operations of `createX` |
| CreationTools.CreateOpsShape | src/utils/creationtools.ts:16-40 | nothing for an empty list or a missing model; otherwise one bulk write, per item its key filter and the item plus `_shardId` |
| CreationTools.WriteOfKeyed | src/utils/creationtools.ts:27-31 | each upsert is keyed by the writer's fields, and its filter and update carry the shard id |
| CreationTools.CreateWellFormed | src/utils/creationtools.ts:16-40 | every `createX` write is well formed and on its own collection |
| CreationTools.CreateStores | src/utils/creationtools.ts:25-37 | every item that no later item duplicates is held with all its fields afterwards; the last write for a key wins |
| CreationTools.WriterKeyImpliesIndex | src/schemas.ts:44-382 | except for Presence, uniqueness on the writer's key implies the declared unique index |
| CreationTools.PresenceWriterMissesIndex | src/schemas.ts:265-269 | some presence records are unique on the writer's key and still break the declared index |
| CreationTools.AddGuild | src/utils/creationtools.ts:243-293 | one guild's inner loops append its tagged nested lists |
| CreationTools.FlattenGuilds | src/utils/creationtools.ts:242-294 | the nested loops compute the specified seven lists |
| CreationTools.CreateRawGuilds | src/utils/creationtools.ts:230-304 | the method issues exactly the specified writes of `createRawGuilds` |
| CreationTools.FlattenConcat | src/utils/creationtools.ts:242-294 | flattening two runs of guilds concatenates each list |
| CreationTools.FlattenMembers | src/utils/creationtools.ts:242-294 | each list holds exactly the tagged nested items of the guilds |
| CreationTools.FlattenLengths | src/utils/creationtools.ts:242-294 | each list is as long as the nested arrays together; users are as many as members |
| CreationTools.FlattenUsersMatchMembers | src/utils/creationtools.ts:259-267 | the i-th member's `user_id` is the i-th user's id |
| CreationTools.RawGuildsOrder | src/utils/creationtools.ts:296-303 | writes come as guilds, channels, emojis, members, presences, roles, users, voice states, at most one each |
| CreationTools.RawGuildsWellFormed | src/utils/creationtools.ts:230-304 | every write of `createRawGuilds` is well formed |
| Schemas.IndexesLeadWithShard | src/models.ts:24-33 | the eight model names list every collection once, and every unique index starts with `_shardId` |
| DocumentStore.FirstMatch | src/utils/creationtools.ts:28-31 | the first position whose document matches, or the length when none does |
| DocumentStore.UpsertStores | src/utils/creationtools.ts:28-31 | an upsert leaves a record that matches its filter and carries its update |
| DocumentStore.UpsertAllStores | src/utils/creationtools.ts:25-37 | a write whose filter no later write can match is stored after the bulk write |
| DocumentStore.DeleteFirstLeavesNone | src/gateway/handler.ts:126 | on records unique on the filter's fields, `deleteOne` leaves no match and keeps all others |
| DocumentStore.DeleteAllLeavesNone | src/gateway/handler.ts:166-183 | after `deleteMany` no record matches, and every non-matching record remains |
| DocumentStore.RunDeleteManyLeavesNone | src/gateway/handler.ts:162-184 | after deletes that include `deleteMany(f)`, nothing matches `f` |
| DocumentStore.RunDeletesKeep | src/gateway/handler.ts:162-184 | a record that matches no delete filter survives |
| DocumentStore.RunDeletesShrink | src/gateway/handler.ts:162-184 | deletes only remove records |
| DocumentStore.IncrementInverse | src/gateway/handler.ts:205-222 | `$inc` by `a` then `-a` restores the collection when the field is a number or nothing matches |
| DocumentStore.ApplyPerCollection | src/gateway/handler.ts:95-115 | sequenced operations keep the registered collections, and each collection sees only its own operations |
| DocumentStore.ShardIsolation | src/proxy.ts:82-93 | operations scoped to one shard leave every other shard's records unchanged, in order |
| DocumentStore.ShardWipe | src/proxy.ts:89 | wiping a shard keeps exactly the other shards' records, and wiping twice is wiping once |
| DocumentStore.UniqueAfterRun | src/utils/creationtools.ts:25-37 | keyed operations preserve uniqueness on the key |
| DocumentStore.UpsertAllFrom | src/gateway/handler.ts:191-198 | once nothing matches `f`, a bulk write leaves only matching records that carry one of its updates |
| Mock.OnResetOps | src/proxy.ts:85-92 | a reset addresses each collection exactly once |
| Mock.ResetWipesShard | src/proxy.ts:82-93 | a reset leaves exactly the other shards' records in each registered collection and leaves unregistered ones untouched |
| Mock.ResetScoped | src/proxy.ts:85-92 | every reset operation is a shard-scoped `deleteMany` on a registered model |
| Proxy.Models.constructor | src/models.ts:36-50 | new models hold the given registrations and no connection |
| Proxy.Models.Connect | src/proxy.ts:101 | the connection is recorded and the store is unchanged |
| Proxy.Models.Perform | src/proxy.ts:89 | the store becomes the operation's result |
| Proxy.Models.CtxFor | src/proxy.ts:73-75 | the shard's view has its id and exactly the registered collections |
| Proxy.GatewayUrl | src/proxy.ts:103-107 | the supplied url unless missing or empty, else the fetched one; the manager's `options.url \|\| ''` resolution uses the same function |
| Proxy.Waits | src/proxy.ts:110 | waits unless `wait` is `false` |
| Proxy.RunEffectsSpec | src/proxy.ts:101-117 | the url is fetched exactly when none is supplied; a supplied url is used; ready is awaited exactly unless `wait` is `false` |
| Proxy.ShardProxy.constructor | src/proxy.ts:43-59 | the proxy has the token, ids, handler and models, and has not run |
| Proxy.ShardProxy.Create | src/proxy.ts:43-59 | fails exactly without a token; uses the given models or fresh empty ones |
| Proxy.ShardProxy.Reset | src/proxy.ts:82-93 | the loop issues the reset's deletes, and each collection keeps exactly the other shards' records |
| Proxy.ShardProxy.Kill | src/proxy.ts:77-80 | the gateway is killed, then this shard's records are wiped |
| Proxy.ShardProxy.Receive | src/gateway/handler.ts:41 | a packet's operations are applied to the shared store |
| Proxy.ShardProxy.Run | src/proxy.ts:95-120 | the first call connects and performs the run effects; later calls do nothing |
| Proxy.RunTwice | src/proxy.ts:99-100 | two runs connect once |
| Buckets.Runs | src/bucket.ts:36-39 | the calls of running a queue, one per item, in order |
| Buckets.RunsConcat | src/bucket.ts:36-39 | running two parts in turn is running the whole |
| Buckets.Bucket.constructor | src/bucket.ts:4-7 | new buckets are locked, not flushing, and empty |
| Buckets.Bucket.Lock | src/bucket.ts:9-11 | sets `locked` and nothing else |
| Buckets.Bucket.Add | src/bucket.ts:18-24 | queues when locked or flushing, else runs at once with the queue unchanged |
| Buckets.Bucket.Shift | src/bucket.ts:34-47 | does nothing when locked; otherwise runs the queue front-first, empties it, clears `flushing`, then calls back |
| Buckets.Bucket.Unlock | src/bucket.ts:13-16 | opens the bucket and runs everything queued, in order |
| Buckets.Bucket.Flush | src/bucket.ts:26-32 | opens, runs the queue in order, then resolves |
| Buckets.Bucket.Reset | src/bucket.ts:49-53 | empties the queue, locks, clears `flushing` |
| Buckets.AddWhileLocked | src/bucket.ts:18-20 | items added while locked are queued in order and none runs |
| Buckets.QueuedThenUnlocked | src/bucket.ts:13-24 | items queued then unlocked run once each, in order |
| Numbers.DecimalRoundTrip | src/cluster/process.ts:40-43 | reading back `String(n)` with `+` gives `n` |
| Numbers.OrElse | src/proxycluster.ts:58 | `a \|\| b` is `a` unless it is 0 or `NaN` |
| ClusterProcess.OverlayWins | src/cluster/process.ts:39 | the overlay has both sets of keys, and the source's values win |
| ClusterProcess.ChildEnvSpec | src/cluster/process.ts:39-44 | the child reads back its numbers exactly; other variables come from the options, else the parent |
| ClusterProcess.MessageEvents | src/cluster/process.ts:56-81 | READY, DISCONNECT and RECONNECTING emit only their event, RESPAWN_ALL nothing, anything else `message` |
| ClusterProcess.IpcMessage | src/cluster/process.ts:112-119 | `{op, data ?? null, request ?? false, shard}` with `shard` absent when not given |
| ClusterProcess.IpcMessageEvents | src/cluster/process.ts:112-119 | a sent READY is read as `ready`, RESPAWN_ALL as nothing, an unknown op as `message` |
| ClusterProcess.ResolveAll | src/cluster/process.ts:146-149 | `ready` resolves every pending run and leaves the others |
| ClusterProcess.Timed | src/cluster/process.ts:137 | a timer is set exactly for a non-zero timeout |
| ClusterProcess.ProxyClusterProcess.constructor | src/cluster/process.ts:31-50 | the child environment is the overlay of parent, options and cluster variables; no child yet |
| ClusterProcess.ProxyClusterProcess.OnMessage | src/cluster/process.ts:56-81 | emits the message's events; `ready` resolves pending runs |
| ClusterProcess.ProxyClusterProcess.OnExit | src/cluster/process.ts:83-95 | emits `killed`, clears the child, attempts a respawn if asked, and a failure is only `warn` |
| ClusterProcess.ProxyClusterProcess.Send | src/cluster/process.ts:97-110 | without a child resolves and sends nothing; otherwise sends, and the channel decides |
| ClusterProcess.ProxyClusterProcess.SendIpc | src/cluster/process.ts:112-119 | sends the IPC message with its defaults |
| ClusterProcess.ProxyClusterProcess.Run | src/cluster/process.ts:121-153 | an existing child is returned without forking; otherwise forks, and waits unless `wait` is `false` |
| ClusterProcess.ProxyClusterProcess.OnTimeout | src/cluster/process.ts:138-144 | kills and clears the child only if it is still current; the run is rejected either way |
| ClusterProcess.RunTwice | src/cluster/process.ts:124-126 | a second run forks nothing |
| ClusterProcess.StaleTimeout | src/cluster/process.ts:139-142 | an old timer does not kill a newer child |
| ClusterProcess.ReadyFirst | src/cluster/process.ts:146-149 | `ready` before the timer resolves the run |
| ClusterManager.ResolvedCount | src/proxyclustermanager.ts:89-93 | option, else field, else fetched count |
| ClusterManager.NeedsFetch | src/proxyclustermanager.ts:91 | the REST lookup happens exactly when the url or the count is missing |
| ClusterManager.RunCount | src/proxyclustermanager.ts:89-93 | the shard count `run` uses: the option or field when non-zero, else the fetched count |
| ClusterManager.RunUrl | src/proxyclustermanager.ts:90-94 | the gateway url `run` uses: the option url unless missing or empty, else the fetched url (Proxy.GatewayUrl) |
| ClusterManager.ChunksFromChunks | src/proxyclustermanager.ts:105-109 | the loop's chunks are the closed-form chunks of the range |
| ClusterManager.LoopBound | src/proxyclustermanager.ts:105 | iteration `k` runs exactly when chunk `k` exists |
| ClusterManager.ChunksTail | src/proxyclustermanager.ts:105 | dropping the first chunk is starting `spc` later |
| ClusterManager.ChunksShape | src/proxyclustermanager.ts:104-132 | chunks lie in the range, are non-empty and at most `spc` wide, are contiguous, and start at `shardStart` and end at `shardEnd` |
| ClusterManager.NextChunk | src/proxyclustermanager.ts:108-109 | each chunk ends at `min(start + spc - 1, shardEnd)` and the next starts `spc` later |
| ClusterManager.ChunkOf | src/proxyclustermanager.ts:104-132 | shard `x` is in chunk `(x - s) / spc` and in no other |
| ClusterManager.ChunksCover | src/proxyclustermanager.ts:104-132 | a shard is in some chunk exactly when it is in the range |
| ClusterManager.ChunksOrdered | src/proxyclustermanager.ts:104-132 | earlier chunks hold lower shards |
| ClusterManager.SixteenShardsInTwoClusters | examples/clustermanager.js:4-8 | shards 0 to 15 in clusters of 8 give two clusters |
| ClusterManager.SleepsPrefix | src/proxyclustermanager.ts:121-129 | before the last chunk each sleep is `delay * (spc - 1)` |
| ClusterManager.SleepsBetweenChunks | src/proxyclustermanager.ts:121-129 | one sleep of `delay * (spc - 1)` after each chunk but the last, none when that is 0 |
| ClusterManager.ProxyClusterManager.constructor | src/proxyclustermanager.ts:37-75 | records the settings and sets the manager flag and token in the environment |
| ClusterManager.ProxyClusterManager.Create | src/proxyclustermanager.ts:37-75 | fails exactly without a token or with a `shards` not of length two; `respawn` defaults on; count and cluster size default to 0 and 6 |
| ClusterManager.ProxyClusterManager.Run | src/proxyclustermanager.ts:77-135 | once only; fetches when needed; fails on a count of 0; sets `shardEnd`; one process per chunk under consecutive ids, each run until its child is ready; sleeps between chunks |
| ClusterManager.ProxyClusterManager.Spawn | src/proxyclustermanager.ts:104-132 | one fresh process per chunk under its index, told its chunk and run until ready (first child forked, its READY emitted as `ready`, its run resolved) before the next chunk, and the specified sleeps |
| ClusterManager.ProxyClusterManager.StartCluster | src/proxyclustermanager.ts:111-119 | a fresh process with the chunk's options and the manager's environment, run until ready: child 0 forked, `ready` emitted, its one untimed run resolved, nothing sent, killed or respawned |
| ClusterManager.ProxyClusterManager.SendTo | src/proxyclustermanager.ts:139 | a process gets the message exactly when it has a child, and nothing else of it changes |
| ClusterManager.ProxyClusterManager.Broadcast | src/proxyclustermanager.ts:137-142 | every process is sent the message, nothing else of any process changes, and every result is collected by cluster id |
| ClusterManager.ProxyClusterManager.SendAll | src/proxyclustermanager.ts:138-140 | the loop delivers to every process, changes nothing else of them, and records each outcome |
| Cluster.ForkedClusterReadsChunk | src/proxycluster.ts:44-51 | a forked cluster sees the manager's token, count and chunk, and the url, whatever its own options say |
| Cluster.ShardIds | src/proxycluster.ts:140 | the ids from start to end in steps of one, none if a bound is `NaN` |
| Cluster.ShardIdsCover | src/proxycluster.ts:140 | each id of the range is visited once, in increasing order |
| Cluster.ClampedDelay | src/proxycluster.ts:151 | the delay lies in `[0, maxDelay]` and is what remains after `took` |
| Cluster.ShardSleepsBounds | src/proxycluster.ts:149-155 | every sleep is in `(0, maxDelay]`, and there are fewer sleeps than shards |
| Cluster.WipedUpToStep | src/proxycluster.ts:100-102 | each shard's kill extends the wiped prefix by one shard |
| Cluster.ProxyCluster.constructor | src/proxycluster.ts:37-84 | records the settings, fresh models, no shards |
| Cluster.ProxyCluster.Create | src/proxycluster.ts:37-84 | uses the manager's variables under a manager; fails exactly without a token or with a bad `shards`; defaults the count and range |
| Cluster.ProxyCluster.StartShard | src/proxycluster.ts:141-147 | a fresh proxy for the id on the shared models, already run |
| Cluster.ProxyCluster.StartShards | src/proxycluster.ts:140-156 | one started proxy per id of the range, stored under it, with the clamped sleeps |
| Cluster.ProxyCluster.Run | src/proxycluster.ts:110-160 | once only; resolves the count and url; fails on 0; sets `shardEnd`; starts every shard in order; then `ran` and `ready` |
| Cluster.ProxyCluster.Launch | src/proxycluster.ts:138-159 | connects, starts the shards, then sets `ran` and emits `ready` |
| Cluster.ProxyCluster.KillShards | src/proxycluster.ts:100-102 | every shard kills its gateway and wipes its records |
| Cluster.ProxyCluster.KillAt | src/proxycluster.ts:101 | one shard's kill, nothing else |
| Cluster.ProxyCluster.Kill | src/proxycluster.ts:98-108 | no-op before a run; afterwards all shards killed and wiped, shards emptied, `ran` cleared, `killed` emitted |
| Cluster.RunTwice | src/proxycluster.ts:114-116 | a second run adds no shard or connection |
| MockCluster.MockGateway.constructor | src/mockgateway.ts:26-32 | a gateway with the token, ids and handler |
| MockCluster.MockGateway.Run | src/mockgateway.ts:64-86 | connects the database with the second argument and the socket with the first, and waits for ready |
| MockCluster.MockGatewayCluster.constructor | src/mockgatewaycluster.ts:37-79 | records the settings, fresh models, no shards |
| MockCluster.MockGatewayCluster.Create | src/mockgatewaycluster.ts:37-79 | the proxy cluster's checks and defaults |
| MockCluster.MockGatewayCluster.StartShards | src/mockgatewaycluster.ts:135-145 | one gateway per id, in order, with `delay` slept between consecutive shards |
| MockCluster.MockGatewayCluster.Run | src/mockgatewaycluster.ts:105-149 | once only; resolves and checks the count; connects once; starts every shard; fixed sleeps; `ready` |
| MockCluster.MockGatewayCluster.Launch | src/mockgatewaycluster.ts:133-148 | connects, starts the shards, sets `ran` and emits `ready` |
| MockCluster.MockGatewayCluster.Kill | src/mockgatewaycluster.ts:93-103 | no-op before a run; fails on the first shard after a run that has shards; otherwise clears `ran` and emits `killed` |

## Left out

- Sockets, REST, mongoose, `fork`, IPC transport, timers and `Date.now` are not modelled. Their answers are parameters, and their effects are logged.
- Concurrency and `async` interleavings are not modelled. Every awaited call completes before the next one, as the source awaits them in sequence. `onPacket`'s handlers, which nothing awaits, are run to completion one packet at a time.
- Buckets.Bucket.Shift: the queue is drained by a loop. A function that adds to the bucket while it drains (re-entrancy) is not modelled.
- Documents are flat maps of null, boolean, number and string values. Nested objects, such as a member's `user`, enter only through the fields copied out of them.
- Mongoose's strict schema casting is left out. The store holds every field a write carries. Mongoose drops paths that are not in the schema, so the real database keeps neither the `count` of GUILD_MEMBER_ADD/REMOVE (src/schemas.ts:117-148 has only `member_count`) nor a presence's `cache_id` (src/schemas.ts:251-264). HandlerProperties.CountedGuilds and HandlerProperties.PresenceOnlineStores describe the operations as issued, applied to a schemaless store.
- A failing database operation does not stop the handler here. DocumentStore.Increment turns a `$inc` on a non-numeric field into a no-op, and the handler's later writes still run. In the source the awaited rejection aborts the rest of GUILD_MEMBER_ADD or GUILD_MEMBER_REMOVE.
- MongoDB's own enforcement of unique indexes is left out. The model shows which indexes the writes keep, rather than rejecting writes.
- GatewayHandler.UpperCase: it upper-cases ASCII letters only. JavaScript's `toUpperCase` also maps other scripts.
- `getHandler` looks handlers up by property name. Here the lookup is the closed event datatype, and any other name is `Unknown`.
- Field-level mutation of incoming payloads is left out. Payloads are values, and the tags are added to copies.
- The `Models` class keeps its registrations in `store`. `src/models.ts` as shown has no `connect` method (it is called from src/proxy.ts:101), so a connection is only recorded.
- `intialize` and model registration happen outside the model.
- `Models.reset` in src/models.ts is left out. Its `for ... in` loop visits indexes and deletes nothing, and nothing in the core calls it.
- `MockGateway.reset` (Channel, `Overwrite` and User only) is left out. Only the handler's `mock.reset` through `ShardProxy` is modelled.
- The `Overwrite` collection is not a field of `Models` and is not modelled.
- src/cluster/processchild.ts is not part of this model. The manager's awaited `run()` of each cluster is modelled as returning once the child's READY message has arrived, the one that file sends when its cluster is ready.
- The REST client, `shardOptions` copying, `isBot` and `authType`, `clearListeners` and event listeners are plumbing and are left out.
- `this.spawn`, which `onExit` calls but the class does not define, is modelled as a step that may fail (a parameter).
- `Object.defineProperty` on `ran` is modelled as an ordinary field assignment.
- ClusterManager.ProxyClusterManager.Run: it requires `shardsPerCluster > 0`. With 0 the option falls back to 6. A negative value makes the source loop forever, which is not modelled.
- Unary `+` (Numbers.ParseDecimal) reads the empty string as 0, and otherwise an optional minus sign and decimal digits. Other forms JavaScript accepts (surrounding spaces, exponents, hex, fractions) are `NaN` here.
- ClusterManager.Chunks gives the chunks in closed form. The loop's own form is ChunksFrom, and ChunksFromChunks proves the two equal.
- Cluster.ProxyCluster.Kill: it states which records survive in each collection, not their order or multiplicity. The exact per-shard reset is stated in Proxy.ShardProxy.Kill.
- `options.delay` that is not a number (`NaN` sleeps) is not modelled. Delays are integers.
- Socket options beyond `shardId` and `shardCount` (the gateway's own defaults) are left out.
