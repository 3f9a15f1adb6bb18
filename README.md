# Jolly Roger core, modelled in Dafny

Jolly Roger is a puzzle-hunt coordination server. This project models the pieces of it that carry decisions:

- **The Discord bot session.** `DiscordClientRefresher` owns one bot client per process. The client follows the 'discord.bot' setting and the 'disable.discord' flag. A deferred connection attempt takes the 'discord-bot' lock, logs in, and fills the DiscordCache collection through a full resync per resource type. It then keeps that cache current from gateway events.
- **Garbage collection of dead servers.** A pass records this server's heartbeat and finds servers silent for more than five seconds. It runs the registered cleanup hooks on them and then deletes their records. Passes repeat every 500 to 1500 ms.
- **Server methods:**
  - posting an announcement, which fans out one pending announcement per hunt member, and dismissing one;
  - get-or-create of a user's API key under a lock;
  - acknowledging a remote mute on a call peer;
  - loading the fixture hunt.
- **Migrations 37 and 38.** 37 retires 'inactiveOperator' and turns role arrays into per-scope role records. 38 moves `jr_profiles` onto the users' `profile` field.
- **Schemas.** The `Setting` discriminated union and the `ChatMessage` schema, each with its content tree.
- **Client decisions:**
  - the notification center's toast selection and order, dismissed-guess record, Discord "Add me" button and announcement toast;
  - the hunt list page's mailing-list field, form ids, links, buttons and writes;
  - the puzzle page's puzzle lookup, HH:MM chat stamps, Enter-to-send and stick-to-bottom scrolling.

The models take the source's own form:

- **Updated objects and collections become classes.** This covers the refresher, its clients and attempts, the cache table, the GC collector, the collections the methods and migrations write, and component state. Their methods are proved against specification functions, and the properties are lemmas about those functions.
- **Schemas and pure expressions become functions.**
- **Loops stay loops.** The source's `forEach`, `reduce` and `for` loops are `while` loops with invariants, each proved equal to a recursive function that the lemmas are about.

Clocks, random values, lock outcomes, permission verdicts and discord.js behaviour are parameters.

Files: `wrappers.dfy` (Option, Result, method errors), `json.dfy` (documents), `setting.dfy`, `chat_message.dfy`, `discord_cache.dfy`, `discord_refresher.dfy`, `garbage_collection.dfy`, `announcements.dfy`, `fetch_api_key.dfy`, `mediasoup_ack.dfy`, `migration37.dfy`, `migration38.dfy`, `fixture.dfy`, `notification_center.dfy`, `hunt_list_page.dfy`, `puzzle_page.dfy`.

## Model

| member | source | states |
|---|---|---|
| Setting.LookupName | imports/lib/schemas/Setting.ts:5-64 | the discriminator accepts a name iff it is in `SettingNames`, and selects the option whose literal it is |
| Setting.LookupLiteral | imports/lib/schemas/Setting.ts:5-58 | each option's literal selects that option and no other |
| Setting.ParseShape | imports/lib/schemas/Setting.ts:6-57 | one option accepts a value iff its required fields are non-empty strings and its optional ones are absent or non-empty; the setting it gives is of that option and well formed |
| Setting.ParseValue | imports/lib/schemas/Setting.ts:5-58 | the option named by the discriminator accepts the value iff its required fields are non-empty strings and its optional ones are absent or non-empty; the result carries that name |
| Setting.Parse | imports/lib/schemas/Setting.ts:5-58 | a document is accepted iff its name is one of the nine literals and its value conforms to that option; the accepted setting is well formed and carries the document's name |
| Setting.Conforms | imports/lib/schemas/Setting.ts:5-58 | the discriminated union's test of one document: the name is a literal of the union and the value has that option's shape |
| Setting.WellFormed | imports/lib/schemas/Setting.ts:6-57 | every `nonEmptyString` field of a setting, required or optional, is non-empty |
| Setting.Encode | imports/lib/schemas/Setting.ts:5-58 | a setting is stored as a document holding its option's name literal and its value object |
| Setting.ParseEncode | imports/lib/schemas/Setting.ts:5-58 | every well-formed setting survives storage: validating its document gives it back |
| Setting.ParseShapeEncode | imports/lib/schemas/Setting.ts:6-57 | each option accepts the value it stores and gives the setting back |
| Setting.ParseEncodeBranding | imports/lib/schemas/Setting.ts:35-44 | an `email.branding` setting with any subset of its five optional templates round-trips |
| Setting.BrandingValue | imports/lib/schemas/Setting.ts:35-44 | the stored branding value holds exactly the optional fields that are present, each non-empty |
| Setting.ParseEncodeScript | imports/lib/schemas/Setting.ts:49-57 | a `google.script` setting round-trips with or without its optional endpoint URL |
| Setting.ScriptValue | imports/lib/schemas/Setting.ts:49-57 | the stored `google.script` value holds the three secrets, and the endpoint URL exactly when it is present |
| Setting.ParseStrips | imports/lib/schemas/Setting.ts:5-58 | validating is idempotent: the stripped document of an accepted setting validates to the same setting |
| Setting.SettingNamesDistinct | imports/lib/schemas/Setting.ts:62-64 | `SettingNames` lists nine pairwise distinct names |
| Setting.ParsedNameListed | imports/lib/schemas/Setting.ts:5-64 | a document validates only with a name in `SettingNames`, and that name selects the option |
| Json.OptField | imports/lib/schemas/Setting.ts:38-42 | an optional field is written iff it is present, and nothing else changes |
| ChatMessage.ParseNode | imports/lib/schemas/ChatMessage.ts:5-16 | a node parses iff it is a mention block (literal type and non-empty user id) or a text block; the mention shape is tried first |
| ChatMessage.ParseNodes | imports/lib/schemas/ChatMessage.ts:16-21 | an array parses iff every item parses, giving the items' nodes in order |
| ChatMessage.ParseContent | imports/lib/schemas/ChatMessage.ts:19-22 | content parses iff it has type 'message' and a children array whose every node parses |
| ChatMessage.ParseEncodeContent | imports/lib/schemas/ChatMessage.ts:5-22 | well-formed content survives storage unchanged |
| ChatMessage.ContentFromMessage | imports/lib/schemas/ChatMessage.ts:25-32 | `contentFromMessage(msg)` has exactly one child, the text node holding msg |
| ChatMessage.ContentFromMessageValid | imports/lib/schemas/ChatMessage.ts:11-32 | that content validates for every msg, the empty one included |
| ChatMessage.Parse | imports/lib/schemas/ChatMessage.ts:34-46 | a message is accepted iff hunt and puzzle are non-empty, text is absent or non-empty, content is absent or valid, sender is absent or non-empty, and timestamp is a date |
| ChatMessage.EncodeFields | imports/lib/schemas/ChatMessage.ts:34-46 | a stored message holds hunt, puzzle and timestamp, and text, sender and content exactly when present |
| ChatMessage.WellFormed | imports/lib/schemas/ChatMessage.ts:34-46 | hunt and puzzle non-empty, text and sender non-empty when present, content with non-empty mention ids |
| ChatMessage.Encode | imports/lib/schemas/ChatMessage.ts:34-46 | the stored document: hunt, puzzle and timestamp, plus text, sender and content when present (stated by `EncodeFields`) |
| ChatMessage.ParseEncode | imports/lib/schemas/ChatMessage.ts:34-46 | every well-formed message, system messages with no sender included, survives storage |
| DiscordCache.UpsertAll | imports/server/discordClientRefresher.ts:183-195 | the awaited upsert of every live entry of the type, in iteration order (stated by `UpsertAllAt`) |
| DiscordCache.ResyncAsWritten | imports/server/discordClientRefresher.ts:178-195 | the resync as written: delete the cached ids of the type outside `new Set(...cache.keys())`, then upsert every live entry (stated by `ResyncAsWrittenIds` and `ResyncAsWrittenFrame`) |
| DiscordCache.Resync | imports/server/discordClientRefresher.ts:178-195 | the intended resync: delete the cached ids of the type that are not live keys, then upsert every live entry (stated by `ResyncCorrect`) |
| DiscordCache.RemoveIds | imports/server/discordClientRefresher.ts:181 | `removeAsync({type, snowflake: {$in}})` deletes exactly the rows of that type with a listed id |
| DiscordCache.SpreadKeySet | imports/server/discordClientRefresher.ts:179 | `new Set(...cache.keys())` holds only one-character strings, and is empty for an empty cache |
| DiscordCache.UpsertAllAt | imports/server/discordClientRefresher.ts:183-195 | the sequential upserts leave the old rows plus every live key, each holding its live snapshot; no other row changes |
| DiscordCache.ResyncCorrect | imports/server/discordClientRefresher.ts:178-195 | after the intended resync, the cached ids of the type are exactly the live keys, each with its snapshot, and other types are untouched |
| DiscordCache.ResyncIdempotent | imports/server/discordClientRefresher.ts:178-195 | resyncing again with the same live cache changes nothing |
| DiscordCache.ResyncAsWrittenAgrees | imports/server/discordClientRefresher.ts:178-195 | the resync as written equals the intended one while no cached id of the type is one character long |
| DiscordCache.ResyncAsWrittenIds | imports/server/discordClientRefresher.ts:178-195 | after the resync as written, the cached ids of the type are the live keys plus the old ids that are characters of the first live key |
| DiscordCache.ResyncAsWrittenFrame | imports/server/discordClientRefresher.ts:178-195 | the resync as written leaves the rows of every other type as they were |
| DiscordCache.ResyncAsWrittenKeepsStaleRow | imports/server/discordClientRefresher.ts:179 | as written, a cached guild "1" survives a resync whose only live key is "12" |
| DiscordCache.ApplyEvent | imports/server/discordClientRefresher.ts:197-223 | a create/update event upserts that one row with the new snapshot, a delete removes it, and nothing else changes |
| DiscordCache.EventsTrackLive | imports/server/discordClientRefresher.ts:197-223 | starting from a resynced table, events keep the cached ids of the type equal to the live key set and never touch another type |
| DiscordCache.CacheTable.ResyncTypeAsWritten | imports/server/discordClientRefresher.ts:178-195 | the method as written leaves the rows `ResyncAsWritten` describes |
| DiscordCache.CacheTable.ResyncType | imports/server/discordClientRefresher.ts:178-195 | the full resync on the table, with the key set of line 179 corrected |
| DiscordCache.CacheTable.UpsertLoop | imports/server/discordClientRefresher.ts:183-195 | the `reduce` over awaited upserts, as a loop, leaves `UpsertAll` of the old rows |
| DiscordCache.CacheTable.HandleEvent | imports/server/discordClientRefresher.ts:197-223 | one event handler's write |
| DiscordClientRefresher.Refresher.Ready | imports/server/discordClientRefresher.ts:40-42 | `ready()`: true exactly when the refresher holds a client |
| DiscordClientRefresher.Refresher.constructor | imports/server/discordClientRefresher.ts:26-38 | starts both observers; the settings observer's `added` callback runs `updateBotConfig` on the stored 'discord.bot' document, if any, before the constructor returns, so the refresher ends with that token and, when Discord is enabled and the token non-empty, a fresh client and one deferred attempt; with no such document it ends with no client, no token and no wakeup |
| DiscordClientRefresher.Refresher.RefreshClient | imports/server/discordClientRefresher.ts:64-86 | the old client is destroyed and its token cleared; the pending wakeup is fired and cleared; `ready()` then holds iff Discord is not disabled and the token is truthy, and then there is a fresh client carrying the token and one new deferred attempt |
| DiscordClientRefresher.Refresher.StandDown | imports/server/discordClientRefresher.ts:65-73 | the old client is destroyed and without a token, the old wakeup has been fired, and neither is kept |
| DiscordClientRefresher.Refresher.UpdateBotConfig | imports/server/discordClientRefresher.ts:50-57 | a document not named 'discord.bot' changes nothing; otherwise the token becomes the document's and the client is refreshed |
| DiscordClientRefresher.Refresher.ClearBotConfig | imports/server/discordClientRefresher.ts:59-62 | the token is unset and the client refreshed, which leaves no client |
| DiscordClientRefresher.Refresher.Shutdown | imports/server/discordClientRefresher.ts:44-48 | both observers stop and no client, token or wakeup is left |
| DiscordClientRefresher.Refresher.LockGranted | imports/server/discordClientRefresher.ts:87-105 | an attempt whose client lost its token bails without renewing; otherwise it renews and logs in with the current token |
| DiscordClientRefresher.Refresher.RenewTick | imports/server/discordClientRefresher.ts:97-104 | a failed renewal refreshes the client; a successful one changes nothing |
| DiscordClientRefresher.Refresher.ConnectFailed | imports/server/discordClientRefresher.ts:106-159 | a throw ends the attempt and the `finally` stops the renewal |
| DiscordClientRefresher.Refresher.Connected | imports/server/discordClientRefresher.ts:113-150 | the guild, channel and role caches are resynced as written at line 179 (each type's cached ids become its live keys plus the old ids that are characters of its first live key, and exactly its live keys when no cached id is one character long), and the attempt stores its wakeup and enters the race |
| DiscordClientRefresher.Refresher.EnterRace | imports/server/discordClientRefresher.ts:142-150 | the attempt's own unfired resolver becomes the stored wakeup, and the attempt waits in the race |
| DiscordClientRefresher.Refresher.RaceSettled | imports/server/discordClientRefresher.ts:147-159 | woken up first, the attempt does nothing more; invalidated first, it refreshes the client; either way renewal stops |
| DiscordClientRefresher.CacheResources | imports/server/discordClientRefresher.ts:113-124 | the three resyncs as written, in order; afterwards each type's cached ids are its live keys plus the old ids that are characters of its first live key, and exactly its live keys when no cached id of that type is one character long |
| DiscordClientRefresher.CachedIds | imports/server/discordClientRefresher.ts:113-124 | after the three resyncs as written, each type's cached ids are its live keys plus the old ids that are characters of its first live key |
| DiscordClientRefresher.CachedLiveIds | imports/server/discordClientRefresher.ts:113-124 | when no cached id of a type is one character long, that type's cached ids end equal to its live keys |
| DiscordClientRefresher.ResyncOtherIds | imports/server/discordClientRefresher.ts:113-124 | resyncing one type leaves the cached ids of the other types as they were |
| DiscordClientRefresher.AllRoles | imports/server/discordClientRefresher.ts:117-123 | the role map merged over all guilds has distinct keys, exactly the union of the guilds' role ids |
| DiscordClientRefresher.SetAll | imports/server/discordClientRefresher.ts:120 | one guild's `forEach` of `roles.set` keeps keys distinct and adds exactly that guild's role ids |
| DiscordClientRefresher.CollectRoles | imports/server/discordClientRefresher.ts:115-122 | the `reduce` with its inner `forEach`, as two loops, builds `AllRoles` |
| DiscordClientRefresher.SetRoles | imports/server/discordClientRefresher.ts:120 | one guild's `forEach` of `roles.set`, as a loop, builds `SetAll` |
| DiscordClientRefresher.MapSet | imports/server/discordClientRefresher.ts:121 | `Map.set` keeps keys distinct and adds the key; an existing key keeps its place and takes the new value, every other entry stays in place, and a new key goes last |
| DiscordClientRefresher.UpdateUser | imports/server/discordClientRefresher.ts:126-138 | the multi-update sets username, discriminator and avatar on every user linked to that Discord id and on no other |
| DiscordClientRefresher.UpdateUsersAt | imports/server/discordClientRefresher.ts:126-140 | after the sync, each linked user carries the fields of the last cached Discord user with its id; others are untouched, and no link changes |
| DiscordClientRefresher.UpdateUsers | imports/server/discordClientRefresher.ts:140 | `updateUser` applied to each cached Discord user in the cache's order; the user list keeps its length (contents stated by `UpdateUsersAt`) |
| DiscordClientRefresher.UserCollection.UserUpdated | imports/server/discordClientRefresher.ts:139 | a `userUpdate` event leaves the users as `UpdateUser` of the old ones |
| DiscordClientRefresher.UserCollection.SyncCachedUsers | imports/server/discordClientRefresher.ts:140 | the `forEach` over the user cache, as a loop, leaves the users as `UpdateUsers` of the old ones |
| DiscordClientRefresher.LastCached | imports/server/discordClientRefresher.ts:140 | finds a cached user with the id iff one exists |
| GarbageCollection.Upsert | imports/server/garbage-collection.ts:20-25 | the server's record with the current pid, hostname and time is present; other servers' records are kept |
| GarbageCollection.UpsertDistinct | imports/server/garbage-collection.ts:20-25 | the upsert keeps server ids distinct and leaves exactly one record for this server |
| GarbageCollection.IsDead | imports/server/garbage-collection.ts:32-34 | a server is dead when its `updatedAt` is strictly before now minus five seconds |
| GarbageCollection.DeadServers | imports/server/garbage-collection.ts:32-34 | a server is listed iff its heartbeat is older than now minus 5 s |
| GarbageCollection.Pass | imports/server/garbage-collection.ts:19-44 | no dead server means no hook call and only the heartbeat; otherwise each hook is called in order with the dead list; the dead records are removed iff no hook throws; the first throwing hook ends the pass with nothing removed; this server is never dead |
| GarbageCollection.RemoveDeadExactly | imports/server/garbage-collection.ts:43 | the remove keeps exactly the records whose id is not dead |
| GarbageCollection.RemoveKeepsDistinct | imports/server/garbage-collection.ts:43 | removing keeps server ids distinct |
| GarbageCollection.OwnServerNeverDead | imports/server/garbage-collection.ts:20-34 | the record just written is never among the dead |
| GarbageCollection.NextDelay | imports/server/garbage-collection.ts:47 | the next delay lies in [500, 1500) ms |
| GarbageCollection.Collector.RegisterPeriodicCleanupHook | imports/server/garbage-collection.ts:15-17 | the hook is appended and nothing else changes |
| GarbageCollection.Collector.Cleanup | imports/server/garbage-collection.ts:19-44 | the `forEach` over hooks, as a loop, leaves the servers and calls `Pass` describes |
| GarbageCollection.FirstThrowingIs | imports/server/garbage-collection.ts:40 | the hook where the `forEach` stops is the first one that throws, or the end when none does |
| GarbageCollection.Collector.RunHooks | imports/server/garbage-collection.ts:40 | calls each hook in order with the dead ids, up to and including the first that throws |
| GarbageCollection.Collector.Periodic | imports/server/garbage-collection.ts:46-49 | schedules the next run in [500, 1500) ms, then cleans up |
| Announcements.Fanout | imports/server/announcements.ts:25-31 | one pending announcement per member of the hunt, with the hunt, announcement and user |
| Announcements.CountFor | imports/server/announcements.ts:25-31 | counts a user's pending rows; zero iff the user has none |
| Announcements.FanoutOnlyMembers | imports/server/announcements.ts:25-31 | every fanned-out row belongs to a member of the hunt |
| Announcements.FanoutExactlyOnePerMember | imports/server/announcements.ts:25-31 | with distinct users, each member gets exactly one row and each non-member none |
| Announcements.Dismiss | imports/server/announcements.ts:38-41 | removes exactly the rows with that id that belong to the caller |
| Announcements.DismissIdempotent | imports/server/announcements.ts:38-41 | dismissing twice is dismissing once |
| Announcements.AnnouncementStore.PostAnnouncement | imports/server/announcements.ts:10-32 | no caller fails the check; a caller who may not add announcements gets error 401 with nothing written; otherwise the announcement and exactly the fan-out are appended |
| Announcements.AnnouncementStore.DismissPendingAnnouncement | imports/server/announcements.ts:34-42 | no caller fails the check; otherwise the store becomes `Dismiss` of it |
| FetchAPIKey.FindByUser | imports/server/methods/fetchAPIKey.ts:21-28 | `findOne({user})` returns a key of that user iff one exists |
| FetchAPIKey.Fetch | imports/server/methods/fetchAPIKey.ts:16-43 | no caller or a refused user fails; an existing key is returned unchanged; a key another request inserted meanwhile is returned and not duplicated; otherwise one 32-character key is inserted and returned |
| FetchAPIKey.FetchLeavesOneKey | imports/server/methods/fetchAPIKey.ts:21-39 | a user without a key ends with exactly one |
| FetchAPIKey.FetchKeepsOtherKeys | imports/server/methods/fetchAPIKey.ts:21-39 | existing keys are kept, and new rows are the racing one or the user's |
| FetchAPIKey.FetchIdempotent | imports/server/methods/fetchAPIKey.ts:16-43 | a second call returns the same key and writes nothing |
| FetchAPIKey.APIKeyStore.Run | imports/server/methods/fetchAPIKey.ts:16-43 | the method with its reassigned `key` agrees with `Fetch` |
| MediasoupAckPeerRemoteMute.Ack | imports/server/methods/mediasoupAckPeerRemoteMute.ts:15-41 | the guards run in order (401 not logged in, 403 WebRTC disabled, 404 no peer, 403 not the creator); it succeeds iff all pass, and then only that peer changes, to muted with no remote muter |
| MediasoupAckPeerRemoteMute.Acknowledged | imports/server/methods/mediasoupAckPeerRemoteMute.ts:33-40 | the acknowledged peer is muted with no remote muter, and every other field is kept |
| MediasoupAckPeerRemoteMute.AckIdempotent | imports/server/methods/mediasoupAckPeerRemoteMute.ts:33-40 | acknowledging twice is acknowledging once |
| MediasoupAckPeerRemoteMute.PeerStore.Run | imports/server/methods/mediasoupAckPeerRemoteMute.ts:15-41 | the in-place update agrees with `Ack` |
| Migration37.RetireInactive | imports/server/migrations/37-role-reorganization.ts:11-24 | an array holding 'inactiveOperator' gains 'operator' and loses every 'inactiveOperator'; anything else is unchanged |
| Migration37.RetireInactiveDuplicates | imports/server/migrations/37-role-reorganization.ts:13 | `$push` does not deduplicate: an operator who was also inactive ends with 'operator' twice |
| Migration37.Push | imports/server/migrations/37-role-reorganization.ts:31-36 | `rec[scope] ||= []; rec[scope].push(role)` (stated by `PushFacts` and `PushGet`) |
| Migration37.NewRoles | imports/server/migrations/37-role-reorganization.ts:28-38 | the record the loop over the role array builds: 'operator' pushed under each hunt, any other role under the global scope (stated by the lemmas below) |
| Migration37.PushFacts | imports/server/migrations/37-role-reorganization.ts:31-36 | `||= []` then `push` keeps the old keys, adds a new scope last, and adds one role in all |
| Migration37.PushGet | imports/server/migrations/37-role-reorganization.ts:31-36 | the push appends the role to that scope's roles and leaves every other scope's roles as they were |
| Migration37.PushKeepsDistinct | imports/server/migrations/37-role-reorganization.ts:31-36 | the record's keys stay distinct |
| Migration37.GlobalScopeHoldsNonOperatorRoles | imports/server/migrations/37-role-reorganization.ts:28-38 | the global scope holds the non-operator roles in order, duplicates included |
| Migration37.HuntScopesHoldOperator | imports/server/migrations/37-role-reorganization.ts:28-38 | each hunt's scope holds 'operator' once per operator role per listing of that hunt |
| Migration37.NewRolesTotal | imports/server/migrations/37-role-reorganization.ts:28-38 | the record holds the non-operator roles plus operator roles times hunts, no more |
| Migration37.NewRolesKeys | imports/server/migrations/37-role-reorganization.ts:28-38 | the keys are distinct, and each is the global scope or one of the user's hunts |
| Migration37.Pull | imports/server/migrations/37-role-reorganization.ts:19 | `$pull` removes every copy of the role and keeps every other role |
| Migration37.Reorganize | imports/server/migrations/37-role-reorganization.ts:26-43 | a user with a role array gets the per-scope record built from its roles and hunts; a user whose roles are already a record is unchanged |
| Migration37.Migrate | imports/server/migrations/37-role-reorganization.ts:8-44 | `up()` on one user keeps its id and hunts; a role array becomes the record built from the retired array, and any other roles field is left as it is |
| Migration37.MigrateRetiresInactive | imports/server/migrations/37-role-reorganization.ts:11-43 | after the migration a former inactive operator holds 'operator' in every hunt it is a member of |
| Migration37.MigrateLeavesNoInactive | imports/server/migrations/37-role-reorganization.ts:11-43 | after the migration a user's role array is a record, and no scope of it holds 'inactiveOperator' |
| Migration37.NewRolesKeepsAbsent | imports/server/migrations/37-role-reorganization.ts:28-38 | the record holds only 'operator' and roles of the array, so any other role stays absent from every scope |
| Migration37.UserTable.BuildNewRoles | imports/server/migrations/37-role-reorganization.ts:27-38 | the nested loops build `NewRoles` |
| Migration37.UserTable.Up | imports/server/migrations/37-role-reorganization.ts:8-44 | every user ends as `Migrate` of itself: first pass, then role arrays converted to records; records stay as they are |
| Migration38.Unset | imports/server/migrations/38-consolidate-profiles.ts:24-26 | `{$ne: null}` unsets a present, non-null profile and leaves an absent or null one |
| Migration38.LastDocFor | imports/server/migrations/38-consolidate-profiles.ts:28-51 | finds the profile document applied last to a user, iff any matches |
| Migration38.Migrated | imports/server/migrations/38-consolidate-profiles.ts:23-51 | a user with a profile document gets exactly its five fields; any other is left with no profile value, and a null profile stays null |
| Migration38.ApplyDoc | imports/server/migrations/38-consolidate-profiles.ts:36-50 | the `$set` changes only the user with the document's id |
| Migration38.OrphanDocChangesNothing | imports/server/migrations/38-consolidate-profiles.ts:36-50 | a document matching no user changes nothing |
| Migration38.MigratedIdempotent | imports/server/migrations/38-consolidate-profiles.ts:23-51 | running the migration's user rewrite twice gives the result of running it once |
| Migration38.Collections.Up | imports/server/migrations/38-consolidate-profiles.ts:23-51 | the two loops leave every user as `Migrated` describes |
| Fixture.UpsertTag | imports/server/fixture.js:28-35 | one tag upsert: the tag gets the fixture hunt and its name, a new tag is created with just those, and no other tag changes |
| Fixture.UpsertTagsAt | imports/server/fixture.js:27-36 | each fixture tag ends with the fixture hunt and its last fixture name; other tags are unchanged |
| Fixture.UpsertTagsIdempotent | imports/server/fixture.js:27-36 | upserting the tags twice is upserting them once |
| Fixture.AddToSet | imports/server/fixture.js:49-51 | `$addToSet $each` keeps the old tags first and appends each missing element once, in the order of its first occurrence in the added list |
| Fixture.AddToSetPresent | imports/server/fixture.js:49-51 | adding elements already present changes nothing |
| Fixture.UpsertPuzzle | imports/server/fixture.js:40-52 | one puzzle upsert: hunt, title, url and answer are set, the tags become `$addToSet` of the old ones (none for a new puzzle), other fields are kept, and no other puzzle changes |
| Fixture.UpsertPuzzlesAt | imports/server/fixture.js:39-53 | each fixture puzzle ends with the fixture hunt and its last title, url and answer, its old tags followed by every fixture tag it lacked; other puzzles are unchanged |
| Fixture.UpsertPuzzlesIdempotent | imports/server/fixture.js:39-53 | upserting the puzzles twice is upserting them once |
| Fixture.EnsureHunt | imports/server/fixture.js:17-24 | the hunt is inserted, with open signups, only when none has the fixture id |
| Fixture.Create | imports/server/fixture.js:9-54 | no caller or no permission fails before any write; otherwise hunt, tags and puzzles are loaded |
| Fixture.CreateIdempotent | imports/server/fixture.js:9-54 | running the method twice gives the state of running it once |
| Fixture.Store.CreateFixtureHunt | imports/server/fixture.js:9-54 | the method with its two loops agrees with `Create` |
| Fixture.Store.LoadTags | imports/server/fixture.js:27-36 | the tags `forEach`, as a loop, leaves the tags as `UpsertTags` and changes nothing else |
| Fixture.Store.LoadPuzzles | imports/server/fixture.js:39-53 | the puzzles `forEach`, as a loop, leaves the puzzles as `UpsertPuzzles` and changes nothing else |
| NotificationCenter.DismissGuessAsWritten | imports/client/components/NotificationCenter.tsx:421-428 | as written: a new id records now; an already dismissed id keeps its earlier time; other entries stay |
| NotificationCenter.RedismissedGuessStillShown | imports/client/components/NotificationCenter.tsx:421-453 | as written, a guess hidden by a dismissal, later updated, stays shown after a second dismissal |
| NotificationCenter.DismissGuess | imports/client/components/NotificationCenter.tsx:421-428 | as intended: the guess's record becomes now, and other entries stay |
| NotificationCenter.DismissHidesGuess | imports/client/components/NotificationCenter.tsx:421-453 | with the intended merge, dismissing a guess after its last change hides it and no other guess's visibility changes |
| NotificationCenter.ForUser | imports/client/components/NotificationCenter.tsx:398-402 | keeps exactly the user's pending announcements |
| NotificationCenter.GuessShown | imports/client/components/NotificationCenter.tsx:450-455 | a pending guess shows unless it was dismissed after `updatedAt ?? createdAt` or its hunt's operator actions are hidden |
| NotificationCenter.GuessToastsShown | imports/client/components/NotificationCenter.tsx:450-462 | a guess gets a toast iff it is not dismissed after `updatedAt ?? createdAt` and its hunt's operator actions are not hidden |
| NotificationCenter.GuessToastsSorted | imports/client/components/NotificationCenter.tsx:393-462 | guess toasts keep the query's ascending `createdAt` order |
| NotificationCenter.ProfileToastRule | imports/client/components/NotificationCenter.tsx:376-448 | the profile toast shows iff not loading, the user has no display name and it is not hidden; the Discord toast shows iff not loading, Discord is configured and not disabled on the server, the user has no Discord account, and it is not hidden |
| NotificationCenter.GuessToastRule | imports/client/components/NotificationCenter.tsx:361-462 | a guess toast shows iff not loading, the user operates some hunt, and a pending guess passes the filter |
| NotificationCenter.NoChatToastsWithoutDingwords | imports/client/components/NotificationCenter.tsx:403-407 | with 'disable.dingwords' active no chat toast shows |
| NotificationCenter.Messages | imports/client/components/NotificationCenter.tsx:430-485 | the toast list: nothing while loading, else setup toasts, guesses, announcements, chat notifications (stated by `MessagesOrdered`) |
| NotificationCenter.MessagesOrdered | imports/client/components/NotificationCenter.tsx:430-485 | toasts run profile, Discord, guesses, announcements, chat notifications; nothing while loading |
| NotificationCenter.CenterState.BuildMessages | imports/client/components/NotificationCenter.tsx:430-485 | the `push` loops build exactly `Messages` |
| NotificationCenter.CollectGuessToasts | imports/client/components/NotificationCenter.tsx:450-462 | the guesses `forEach` builds `GuessToasts` |
| NotificationCenter.CollectAnnouncementToasts | imports/client/components/NotificationCenter.tsx:464-473 | the announcements `forEach` builds one toast per pending announcement, in order |
| NotificationCenter.CollectChatToasts | imports/client/components/NotificationCenter.tsx:475-484 | the chat notifications `forEach` builds one toast per notification, in order |
| NotificationCenter.CenterState.DismissGuessAt | imports/client/components/NotificationCenter.tsx:421-428 | the dismissed record becomes `DismissGuessAsWritten` of the old one: the merge as written, which keeps an earlier dismissal time (see Findings) |
| NotificationCenter.FirstDismissalHidesGuess | imports/client/components/NotificationCenter.tsx:421-428 | a guess's first dismissal merges as intended, hides the guess, and changes no other guess's visibility |
| NotificationCenter.CenterState.OnHideDiscordSetupMessage | imports/client/components/NotificationCenter.tsx:413-415 | sets the Discord hide flag only |
| NotificationCenter.CenterState.OnHideProfileSetupMessage | imports/client/components/NotificationCenter.tsx:417-419 | sets the profile hide flag only |
| NotificationCenter.AddMeEnabled | imports/client/components/NotificationCenter.tsx:222 | the "Add me" button is enabled exactly in IDLE and ERROR |
| NotificationCenter.InitiateOauthFlow | imports/client/components/NotificationCenter.tsx:212-222 | starting the flow goes to LINKING, where the button is disabled |
| NotificationCenter.RequestComplete | imports/client/components/NotificationCenter.tsx:196-242 | completion re-enables the button; it ends in ERROR, showing the link error's text, iff a non-empty secret came back and linking failed |
| NotificationCenter.ErrorText | imports/client/components/NotificationCenter.tsx:242 | error text is shown only in ERROR |
| NotificationCenter.NeverSucceeded | imports/client/components/NotificationCenter.tsx:179-216 | no transition enters SUCCESS |
| NotificationCenter.AnnouncementToastState.OnDismiss | imports/client/components/NotificationCenter.tsx:255-263 | after dismissing, the toast renders nothing, and one dismissal with its id has been sent |
| HuntListPage.Split | imports/client/components/HuntListPage.jsx:78 | `split(/[, ]+/)` gives at least one piece and no piece contains ',' or ' ' |
| HuntListPage.Join | imports/client/components/HuntListPage.jsx:51 | `join(', ')` of one list is that list itself |
| HuntListPage.SplitJoin | imports/client/components/HuntListPage.jsx:51-78 | splitting the joined lists gives them back, for a non-empty list of non-empty entries free of ',' and ' ' |
| HuntListPage.SplitSeparated | imports/client/components/HuntListPage.jsx:78 | a separator-free entry, ", " and a text starting with no separator split into the entry followed by the text's pieces |
| HuntListPage.EmptyListSavesEmptyEntry | imports/client/components/HuntListPage.jsx:51-78 | an empty list is shown as "" and saves back as one empty entry |
| HuntListPage.MailingListsDefault | imports/client/components/HuntListPage.jsx:51 | the field has a default iff the hunt exists and has lists |
| HuntListPage.IdPrefix | imports/client/components/HuntListPage.jsx:20 | the prefix is `jr-hunt-new-modal-` for a new hunt, and for a hunt is built from its `id` property, "undefined" when missing |
| HuntListPage.Title | imports/client/components/HuntListPage.jsx:24 | 'Edit Hunt' iff a hunt is given, 'New Hunt' iff none |
| HuntListPage.IdPrefixesDiffer | imports/client/components/HuntListPage.jsx:20 | an edit form and the new form share a prefix iff the hunt's `id` is "new" |
| HuntListPage.MissingIdsShareOnePrefix | imports/client/components/HuntListPage.jsx:20 | every hunt object without an `id` property gets `jr-hunt-undefined-modal-` |
| HuntListPage.FormIdsAsWritten | imports/client/components/HuntListPage.jsx:28-48 | the label and input ids of the form as written, where line 48 gives the list input the name input's id |
| HuntListPage.FormIdsAsWrittenClash | imports/client/components/HuntListPage.jsx:28-48 | as written, both inputs carry one id and the mailing-list label names no control |
| HuntListPage.IntendedFormIds | imports/client/components/HuntListPage.jsx:28-48 | with the intended ids each label names its own input |
| HuntListPage.FormIdsDistinct | imports/client/components/HuntListPage.jsx:28-48 | with the intended ids the two inputs are distinct |
| HuntListPage.LinkTarget | imports/client/components/HuntListPage.jsx:149 | the link is `/hunts/` and the id, followed by `/puzzles` exactly for non-operators |
| HuntListPage.RouteOfLinkTarget | imports/client/components/HuntListPage.jsx:149 | the route of the link reads back the view and the hunt id |
| HuntListPage.LinkTargetsDistinct | imports/client/components/HuntListPage.jsx:149 | different hunts or views never share a link |
| HuntListPage.HuntButtons | imports/client/components/HuntListPage.jsx:89-155 | the edit button exists iff the user may update and the delete button iff they may remove, edit first |
| HuntListPage.PageButtons | imports/client/components/HuntListPage.jsx:190-212 | the add button exists iff the user may insert hunts |
| HuntListPage.Edited | imports/client/components/HuntListPage.jsx:71-83 | the saved hunt has the new name and split lists, the same ids, and no list with ',' or ' ' |
| HuntListPage.SaveUnchangedKeepsLists | imports/client/components/HuntListPage.jsx:51-83 | saving the edit form unchanged keeps a clean list of mailing lists |
| HuntListPage.HuntsCollection.OnEdit | imports/client/components/HuntListPage.jsx:71-83 | only the hunt with that `_id` changes, to `Edited`; with unique `_id`s at most one hunt changes, and the ids stay unique |
| HuntListPage.HuntsCollection.OnAdd | imports/client/components/HuntListPage.jsx:180-188 | inserts one hunt with the name and the same split of the lists, under a fresh id, so the ids stay unique |
| PuzzlePage.FindPuzzleById | client/components/PuzzlePage.jsx:327-336 | returns the first puzzle with that id, and undefined iff none matches |
| PuzzlePage.FirstWithIdUnique | client/components/PuzzlePage.jsx:327-336 | there is at most one first match, so the puzzle found is determined by the list and the id |
| PuzzlePage.FormatTimestamp | client/components/PuzzlePage.jsx:118-120 | five characters: two digits of the hours, ':', two digits of the minutes |
| PuzzlePage.ParseFormatTimestamp | client/components/PuzzlePage.jsx:118-120 | a stamp reads back as its hours and minutes, so different times give different stamps |
| PuzzlePage.Decimal | client/components/PuzzlePage.jsx:120 | `'' + n` has one digit iff n < 10, and at most two below 100 |
| PuzzlePage.KeyDown | client/components/PuzzlePage.jsx:168-178 | Enter without Shift always prevents the default; it sends iff the text is non-empty, and then sends that text and clears it; any other key changes nothing |
| PuzzlePage.EnterTwiceSendsOnce | client/components/PuzzlePage.jsx:168-178 | a second Enter sends nothing |
| PuzzlePage.ChatInput.OnKeyDown | client/components/PuzzlePage.jsx:168-178 | the handler agrees with `KeyDown` and records one `sendChatMessage` call per send |
| PuzzlePage.ChatInput.OnInputChanged | client/components/PuzzlePage.jsx:162-166 | the text becomes the input's value |
| PuzzlePage.MessagePane.SaveShouldScroll | client/components/PuzzlePage.jsx:72-82 | `shouldScroll` holds iff clientHeight + scrollTop >= scrollHeight |
| PuzzlePage.MessagePane.ForceScrollBottom | client/components/PuzzlePage.jsx:90-94 | always leaves `shouldScroll` true and the pane at its bottom |
| PuzzlePage.ClampScroll | client/components/PuzzlePage.jsx:92 | an assigned `scrollTop` lands at or below the wanted value, and never below 0 |
| PuzzlePage.ClampedScrollAtBottom | client/components/PuzzlePage.jsx:92 | scrolling to `scrollHeight` lands at the bottom |
| PuzzlePage.MessagePane.MaybeForceScrollBottom | client/components/PuzzlePage.jsx:84-88 | scrolls to the bottom iff `shouldScroll` |
| PuzzlePage.MessagePane.Update | client/components/PuzzlePage.jsx:64-70 | across a re-render, a pane at its bottom stays at its bottom; one scrolled up keeps its place, clamped to the new height, and exactly its place when the content grows |

## Left out

- discord.js itself is not part of this model: login, the gateway, `toJSON` and `destroy`. Snapshots are values whose contents the model does not inspect. Gateway events, "ready", "invalidated" and lock grants are step inputs.
- `Meteor.defer`, `setInterval`, `Promise.race` and the interleaving of async writes are not modelled as concurrency. Each deferred step is an explicit method on `LockTask`, taken in an order the caller chooses.
- `Locks.withLock`, `Locks.renew` and `PREEMPT_TIMEOUT` are not part of this model. Lock grants and renewal outcomes are inputs.
- DiscordClientRefresher.Refresher.Connected: the `userUpdate` handler and the user-cache sync run on a separate `UserCollection`, not inside `Connected`, because MeteorUsers is not one of the refresher's fields. The `void` of the unawaited updates is not modelled: each update completes before the next.
- DiscordClientRefresher.Refresher.constructor: the initial `added` callbacks of the settings observer are modelled as at most one stored 'discord.bot' document, applied through `UpdateBotConfig`. Whether `Flags.observeChanges` fires its callback on start is not modelled, because Flags is not part of this model.
- DiscordClientRefresher.Refresher.RefreshClient: it does not cancel the renewal interval before destroying the client, and the model follows the code: a live renewal can still fire after the client is gone, and then refreshes again.
- `Random.id`, `Random.fraction`, `Date.now`, `new Date()`, `os.hostname` and `process.pid` are parameters. `Random.fraction` is a real in [0, 1).
- `Servers.updatedAt` is stamped elsewhere. The model assumes each upsert stamps it with the current time.
- GarbageCollection.Pass: hooks are not isolated. The code calls them in a bare `forEach`, so the first throwing hook aborts the pass before the remove, and the model does the same.
- The permission stubs and helpers are not part of this model. Their verdicts are parameters:
  - `userMayAddAnnouncementToHunt`, `userIsOperatorForAnyHunt`;
  - `Roles.checkPermission`, `Roles.userHasRole`, `Roles.userHasPermission`;
  - `userForKeyOperation`;
  - `GLOBAL_SCOPE`, whose source, is-admin.ts, is not part of this model.
- `withCommon`'s fields and the bodies of `nonEmptyString`, `foreignKey` and `allowedEmptyString` are not part of this model. They are modelled as "non-empty string", "non-empty id" and "any string".
- `check(x, String)` on method arguments is modelled only for `this.userId`, as an optional caller. The other arguments are typed as strings.
- Ansible logging, the index creation in migration 38, and the `validate`/`filter`/`clean` update options are left out. They have no effect on the modelled state.
- Migration37.Push: JavaScript orders integer-like object keys before other keys. The model uses insertion order for every key, which matches for hunt ids and the global scope.
- FetchAPIKey.Fetch: another request's insert between the first lookup and the one under the lock is a single optional `racing` input. It is not a concurrent run.
- The rendering is left out: the notification toasts' contents, the lookup tables for hunts, puzzles and display names, the modals and the React scheduling of state updates.
- HuntListPage: `onDelete` (`hunt.destroy`, whose code is not part of this model) and the modal `show` calls are left out. `update` and `insert` are modelled as succeeding, because the collection's allow rules are not part of this model.
- PuzzlePage: `getMeteorData`'s subscriptions, the fixture branch, the resize listener and `onHeightChange` are left out. The DOM enters only through the three scroll measurements. The browser's clamping of an assigned `scrollTop` is modelled explicitly by `ClampScroll`.

## Findings

| source | as written | input that shows it | evidently intended | confidence | as-written member | corrected member |
|---|---|---|---|---|---|---|
| imports/server/discordClientRefresher.ts:179 | `new Set(...cache.keys())` passes the keys as separate arguments. `Set` reads only the first, a string, so the "new ids" are that key's characters | a cached guild "1" and a live cache whose only key is "12": "1" counts as live and the stale row survives the resync | `new Set(cache.keys())`: delete exactly the cached ids that are no longer live | not executed; high | DiscordCache.ResyncAsWrittenKeepsStaleRow | DiscordCache.ResyncCorrect |
| imports/client/components/HuntListPage.jsx:48 | the mailing-list input gets the id `${idPrefix}name`, the name input's id | any form: two inputs share one id, and the label for `${idPrefix}mailing-lists` (line 43) names no control | the mailing-list input's id is `${idPrefix}mailing-lists` | not executed; high | HuntListPage.FormIdsAsWrittenClash | HuntListPage.FormIdsDistinct |
| imports/client/components/NotificationCenter.tsx:424-426 | `Object.assign(newState, prev)` copies the earlier dismissal time over the new one | a guess updated at 5 and dismissed at 10 is then updated at 20 and dismissed at 30: it stays shown | the latest dismissal time wins, so dismissing hides the guess | not executed; medium | NotificationCenter.RedismissedGuessStillShown | NotificationCenter.DismissHidesGuess |

The refresher and the notification center's state run the code as written; each corrected member is proved beside it and shows what the intended code would promise.
