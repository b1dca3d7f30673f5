# C2S Discord Link — role reconciliation, modelled in Dafny

The service links a game player's progress record to a Discord member and keeps the
member's progression roles in step with that record. A request carries a player's
progress; the service derives the player's token (the lowercase hex of an HMAC-SHA1
under a server secret), checks that a row exists for the token, rewrites the row, and
then reconciles the member's roles. Reconciliation runs three tracks over the
rewritten row:

- the metabit track (Reality Legend / Expert / Explorer);
- the paleo track (Paleontologist Legend / Progressive Paleontologist / Paleontologist);
- the simulation track (Finder of Semblance's Secrets as an override, else a speed role
  and the Shark Collector role, then the Beta Tester role).

It replaces the member's whole role list with the persistent roles the member already
holds followed by the computed roles. It reports, in track order, the names of the
computed roles the member did not hold yet. The reply message is chosen from those names.

The project models both revisions of this core:

- the live Rust service: `role_handling.dfy`, `handlers.dfy`, `utilities.dfy`,
  `errors.dfy`, `config.dfy` and `webhook_logging.dfy`;
- the earlier TypeScript service, which has other rules and concrete thresholds:
  `legacy_role_handling.dfy` and the request guard in `server.dfy`.

Supporting modules are `role_grants.dfy`, the shared "grant" of a track and the growing
list of gained names. `text.dfy` holds `split`, `join` and `split_whitespace`.
`base64.dfy` is a strict decoder for section 4 of RFC 4648, and `utf8.dfy` models
`as_bytes` and `String::from_utf8`. `models.dfy` holds the progress row, `db.dfy` the
store as a map from token to row, and `discord.dfy` the two Discord collaborators.

The role ids, the persistent roles, the guild id and the Rust thresholds live in a
constants module that is not part of this model. They are a `Constants` parameter. The
"highest tier wins" statements about the metabit track assume
`RealityLegend >= RealityExpert >= RealityExplorer` (`MetabitOrdered`). "At most one
role" needs no such assumption. HMAC-SHA1 is a function parameter `mac(key, message)`
that the model does not look inside. `crypto`'s streaming `input` is modelled as
appending to the message.

Behaviours of the code that the model keeps:

- In the Rust code the speedrun time is always present (an `f32`). There is no "absent
  time" case, so the speed roles are decided by plain `<=` comparisons.
- The TypeScript paleo prestige is `floor((dino_rank - 50) / 50)` with no clamp. The
  legend therefore goes only to ranks 550 to 599, and ranks from 600 up get the base
  role (`LegacyRoleHandling.PaleoTiers`).
- In the TypeScript revision, all hidden achievements give the finder, sonic and shark
  roles together, not the finder role alone.
- The TypeScript revision reports "Simulation Speedster" as gained whenever the member
  lacks the *sonic* role (`LegacyRoleHandling.SpeedsterQuirk`).
- Every request to `update_user` gets the same token: the MAC is given no input.
  `og_update_user` feeds the player id and the player token with no separator, so two
  requests whose id and token concatenate to the same text share a token
  (`Handlers.OgTokenJoined`).

## Model

| member | source | states |
|---|---|---|
| RoleHandling.MetabitGrants | src/role_handling.rs:75-92 | the metabit track hands out at most one role, each checking its own id |
| RoleHandling.MetabitTiers | src/role_handling.rs:79-91 | no role exactly below all three thresholds; with ordered thresholds, legend iff metabits >= legend threshold, expert iff in [expert, legend), explorer iff in [explorer, expert) |
| RoleHandling.Div50 | src/role_handling.rs:97 | `i32` division by 50 truncates toward zero: the quotient brackets the rank from below for non-negative ranks and from above for negative ones |
| RoleHandling.DinoPrestige | src/role_handling.rs:97 | the paleo prestige lies in [0, 10], is 0 below rank 50 and 10 from rank 500, and in between counts the whole steps of 50 |
| RoleHandling.PaleoGrants | src/role_handling.rs:94-114 | the paleo track hands out at most one role |
| RoleHandling.PaleoTiers | src/role_handling.rs:99-109 | with legend tier 10, progressive tier 1 and base rank 26: legend iff rank >= 500, progressive iff 50..99, base iff 26..49 or 100..499, none iff below 26 |
| RoleHandling.SpeedGrants | src/role_handling.rs:125-131 | at most one speed role |
| RoleHandling.SimulationTrack | src/role_handling.rs:120-136 | the simulation roles before the beta role are at most two |
| RoleHandling.SimulationGrants | src/role_handling.rs:116-143 | the simulation track hands out at most three roles, each checking its own id |
| RoleHandling.SimulationRoles | src/role_handling.rs:120-140 | finder iff all hidden achievements, and then no speed or shark role; otherwise sonic iff time <= sonic threshold, speedster iff above it and <= speedster threshold, shark iff all sharks; Beta Tester iff beta tester, whatever else holds, and last |
| RoleHandling.HeldPersistent | src/role_handling.rs:48-52 | a role is kept iff it is a nonzero `PERSISTENT_ROLES` entry the member holds; the kept roles are a subsequence of the table, in table order |
| RoleHandling.TargetRoles | src/role_handling.rs:48-56 | a role is in the new list iff it is a held persistent role or a computed one, so any other held role is dropped |
| RoleHandling.TargetOrder | src/role_handling.rs:48-56 | the list sent is the held persistent roles in table order, followed by the metabit, paleo and simulation roles in that order |
| RoleHandling.GainedOrder | src/role_handling.rs:44-46 | gained names are the metabit track's, then the paleo track's, then the simulation track's |
| RoleHandling.GainedNothing | src/role_handling.rs:72 | no name is gained iff the member already holds every computed role |
| RoleHandling.HeldPersistentSame | src/role_handling.rs:48-52 | the persistent part depends only on which table entries are held |
| RoleHandling.Rerun | src/role_handling.rs:44-72 | reconciling against the list just sent reports nothing and sends the same list again |
| RoleHandling.RerunRoles | src/role_handling.rs:44-72 | with no assumption on the persistent table: reconciling against the list just sent reports nothing and sends a list holding exactly the same roles |
| RoleHandling.ParseU64 | src/role_handling.rs:26-29 | `parse::<u64>` gives a value below 2^64 and refuses the empty string, a lone '+' and any non-digit |
| RoleHandling.ParseDecimal | src/role_handling.rs:26-29 | every 64-bit id parses back from its decimal form |
| RoleHandling.RoleSync | src/role_handling.rs:22-73 | every error up to the role update (zero guild id, unparsable or zero discord id, missing member, unparsable member data, refused update) changes no member, and the first two give their own errors; once the update goes through the member's roles are the target list, and the result is the gained names iff the updated member data parses, else the "failed at parsing member data model" error with the roles already replaced |
| RoleHandling.NotAMember | src/role_handling.rs:31-38 | a member the bot cannot fetch gets the member-data error and nothing is updated |
| RoleHandling.ApplyARole | src/role_handling.rs:145-151 | returns the role id; appends the name to `gained_roles` exactly when the member lacks the role |
| RoleHandling.Apply | src/role_handling.rs:80 | pushing one more grant keeps the applied roles and the gained names equal to those of the grants so far |
| RoleHandling.HandleMetabitRoles | src/role_handling.rs:75-92 | returns the metabit track's roles and appends exactly their new names |
| RoleHandling.HandlePaleoRoles | src/role_handling.rs:94-114 | returns the paleo track's roles and appends exactly their new names |
| RoleHandling.HandleSimulationRoles | src/role_handling.rs:116-143 | returns the simulation track's roles and appends exactly their new names |
| RoleHandling.HandleTracks | src/role_handling.rs:44-46 | the three tracks in turn yield the computed roles and append the gained names in track order |
| RoleHandling.Reconcile | src/role_handling.rs:44-56 | the list to send is the target list and the names are the gained names |
| RoleHandling.HandleRoles | src/role_handling.rs:22-73 | the result and the members' new roles are those `RoleSync` gives |
| RoleGrants.Ids | src/role_handling.rs:54-56 | one role id per grant |
| RoleGrants.IdsIndex | src/role_handling.rs:54-56 | entry i of the role list is grant i's role |
| RoleGrants.NewNames | src/role_handling.rs:147-149 | never more names than grants |
| RoleGrants.NewNamesMembers | src/role_handling.rs:147-149 | a name is reported iff some grant with that name has a checked role the member lacks |
| RoleGrants.IdsAppend | src/role_handling.rs:54-56 | the roles of two grant lists in a row are the roles of each, concatenated |
| RoleGrants.NewNamesAppend | src/role_handling.rs:44-46 | the names gained over two grant lists in a row are the names of each, concatenated |
| RoleGrants.Sequence3 | src/role_handling.rs:44-56 | three tracks recorded one after another give the roles and names of their concatenation |
| RoleGrants.NewNamesEmpty | src/role_handling.rs:147 | no names iff every checked role is held |
| RoleGrants.NewNamesEmptyIds | src/role_handling.rs:147 | for self-checking grants: no names iff every handed-out role is held |
| RoleGrants.GainedRoles.Push | src/role_handling.rs:148 | `gained_roles.push` appends one name |
| LegacyRoleHandling.MetabitGrants | api/structs/roleHandling.ts:30-44 | the metabit track hands out at most one role |
| LegacyRoleHandling.MetabitTiers | api/structs/roleHandling.ts:33-42 | legend iff >= 100e12, expert iff in [1e12, 100e12), explorer iff in [1e9, 1e12), none below 1e9 |
| LegacyRoleHandling.PaleoPrestige | api/structs/roleHandling.ts:48 | the prestige is the floor of (rank - 50) / 50 |
| LegacyRoleHandling.PaleoGrants | api/structs/roleHandling.ts:46-61 | the paleo track hands out at most one role |
| LegacyRoleHandling.PaleoTiers | api/structs/roleHandling.ts:50-59 | legend iff rank 550..599, progressive iff 100..149, base iff 26..99, 150..549 or >= 600, none below 26 |
| LegacyRoleHandling.SimulationTrack | api/structs/roleHandling.ts:66-86 | at most three simulation roles before the beta role |
| LegacyRoleHandling.SimulationGrants | api/structs/roleHandling.ts:63-92 | at most four roles on the simulation track |
| LegacyRoleHandling.SimulationHidden | api/structs/roleHandling.ts:66-72 | all hidden achievements give finder, sonic and shark, in that order, first |
| LegacyRoleHandling.SimulationSpeed | api/structs/roleHandling.ts:74-85 | otherwise sonic iff time <= 120, speedster iff 120 < time <= 300, shark iff all sharks |
| LegacyRoleHandling.SimulationBeta | api/structs/roleHandling.ts:87-90 | Beta Tester iff beta tester, after the rest of the track |
| LegacyRoleHandling.SpeedsterQuirk | api/structs/roleHandling.ts:77-79 | the speedster name is reported iff the member lacks the sonic role, so a speedster without the sonic role is told it gained it again |
| LegacyRoleHandling.HeldPersistent | api/structs/roleHandling.ts:22 | a role is kept iff it is a persistent role the member holds; the kept roles are a subsequence of the table, in table order |
| LegacyRoleHandling.TargetOrder | api/structs/roleHandling.ts:21-26 | `roles.set` receives the held persistent roles in table order, then the metabit, paleo and simulation roles in that order |
| LegacyRoleHandling.TargetRoles | api/structs/roleHandling.ts:21-26 | a role is in the list given to `roles.set` iff it is a held persistent role or a computed one |
| LegacyRoleHandling.GainedOrder | api/structs/roleHandling.ts:23-25 | gained names come metabit, paleo, then simulation |
| LegacyRoleHandling.Give | api/structs/roleHandling.ts:34-35 | one push of a role and, if the checked role is missing, of its name |
| LegacyRoleHandling.HandleMetabitRoles | api/structs/roleHandling.ts:30-44 | returns the metabit roles and appends exactly their new names |
| LegacyRoleHandling.HandlePaleoRoles | api/structs/roleHandling.ts:46-61 | returns the paleo roles and appends exactly their new names |
| LegacyRoleHandling.HandleSimulationRoles | api/structs/roleHandling.ts:63-92 | returns the simulation roles and appends exactly their new names |
| LegacyRoleHandling.HandleTracks | api/structs/roleHandling.ts:23-25 | the three tracks in turn give the computed roles and the gained names |
| LegacyRoleHandling.HandleRoles | api/structs/roleHandling.ts:19-28 | when `roles.set` is accepted the member's roles become the target list and the gained names are returned; when it rejects, the call rejects (None) and the roles stay as they were |
| Discord.DiscordApi.GuildMember | src/role_handling.rs:31-38 | returns the member's roles iff the user is in the guild |
| Discord.DiscordApi.MemberModel | src/role_handling.rs:39-42 | the fetched member's roles iff its data deserialises |
| Discord.DiscordApi.UpdateGuildMember | src/role_handling.rs:58-64 | succeeds iff the bot may manage roles and the member exists, and then replaces the member's whole role list; otherwise changes nothing |
| Discord.DiscordApi.UpdatedModel | src/role_handling.rs:65-70 | the updated member's roles iff its data deserialises |
| Discord.GuildMember.SetRoles | api/structs/roleHandling.ts:21 | `roles.set` succeeds iff the member is manageable, and then leaves it with exactly the given roles; otherwise the roles are unchanged |
| Models.Updated | src/db.rs:19-48 | the rewritten row keeps its identity and takes the beta flag, every progress field and the edit time |
| Db.Store.Connect | src/handlers.rs:102-109 | a client is handed out iff the pool is available |
| Db.Store.GetUserdata | src/db.rs:5-17 | returns the token's row, and fails iff there is none |
| Db.Store.UpdateUserdata | src/db.rs:19-48 | succeeds iff the row exists and the query goes through, then stores and returns the rewritten row; otherwise changes nothing |
| Handlers.MakeResponse | src/handlers.rs:53-63 | `Ok(v)` passes unchanged; every `Err` becomes exactly the given error |
| Handlers.ErrorContent | src/handlers.rs:71-78 | the log text ends with the error's Display text; internal errors show only that, user errors start with the heading and token |
| Handlers.MakeLog | src/handlers.rs:65-84 | returns its input; posts one failure log on `Err` and nothing on `Ok` |
| Handlers.HexByte | src/handlers.rs:120 | a byte renders as exactly two lowercase hex characters |
| Handlers.Hex | src/handlers.rs:116-122 | the token is lowercase hex, twice as long as the code |
| Handlers.Unhex | src/handlers.rs:116-122 | reading an even-length hex text back gives half as many bytes |
| Handlers.UnhexHex | src/handlers.rs:116-122 | the bytes can be read back from the rendered token |
| Handlers.HexUnhex | src/handlers.rs:116-122 | every even-length lowercase hex text is the rendering of some code |
| Handlers.Hmac.Input | src/handlers.rs:113-114 | `input` appends the bytes to the message |
| Handlers.Hmac.Code | src/handlers.rs:116-117 | the code is the MAC of the key and the whole message |
| Handlers.OgTokenJoined | src/handlers.rs:112-114 | the player id and then the player token are fed with no separator, so the token is the MAC of their concatenation |
| Handlers.TokenCode | src/handlers.rs:112-122 | the token is lowercase hex of twice the code's length and determines the code |
| Handlers.JoinEmpty | src/handlers.rs:152 | the joined names are empty iff there are no names or one empty name |
| Handlers.ReplyChoice | src/handlers.rs:152-159 | with non-empty names the fixed "already gained all" reply comes iff nothing was gained; otherwise the prefix and the names joined by ", " in order |
| Handlers.PipelineSteps | src/handlers.rs:102-175 | a failure log iff failure; no client, no row and a refused update each end with their own error and change nothing; otherwise the row is rewritten, roles are reconciled on exactly that row, and the reply names the gained roles |
| Handlers.Respond | src/handlers.rs:175 | success is 200 carrying the reply message; an error stays an error |
| Handlers.Run | src/handlers.rs:124-175 | fetch, then update, then role handling, with the store, members, log and reply those of `Stored` |
| Handlers.Reconcile | src/handlers.rs:145-175 | role handling on the updated row, its error mapped and logged, then the informational log and the reply |
| Handlers.OgUpdateUser | src/handlers.rs:92-176 | the whole route with the token derived from the player id and then the player token |
| Handlers.UpdateUser | src/handlers.rs:178-260 | the whole route with the token of the empty message and beta flag `channel == "Beta"` |
| Utilities.OptionInvalidAuth | src/utilities.rs:10-14 | `Some` passes through; `None` becomes 400 "Invalid authorization header" |
| Utilities.OptionInvalidHeader | src/utilities.rs:16-20 | `Some` passes through; `None` becomes 400 "Invalid header" |
| Utilities.ResultInvalidAuth | src/utilities.rs:24-30 | `Ok` passes through; any `Err` becomes 400 "Invalid authorization header" |
| Utilities.ResultInvalidHeader | src/utilities.rs:32-38 | `Ok` passes through; any `Err` becomes 400 "Invalid header" |
| Utilities.SafeBasicAuthDecoder | src/utilities.rs:52-84 | every failure is 400 "Invalid authorization header"; accepted credentials hold no ':' |
| Utilities.BasicAuthDecoder | src/utilities.rs:87-112 | on a decodable header, returns credentials without ':' |
| Utilities.RejectsOtherSchemes | src/utilities.rs:57-61 | no first word, or a first word other than "Basic", is rejected |
| Utilities.AcceptedParts | src/utilities.rs:54-83 | an accepted header has "Basic", a second word that decodes as Base64 and UTF-8, and text with at least two ':'-pieces, the first two of which are the result |
| Utilities.AcceptedCredentials | src/utilities.rs:74-83 | the decoded text starts with email ':' token and then ends or has a further ':' |
| Utilities.JoinHead | src/utilities.rs:74-76 | joining two or more pieces with ':' starts with the first two and a ':' |
| Utilities.BuiltHeader | src/utilities.rs:46-51 | "Basic " + Base64(UTF-8(text)) splits into two words and decodes back to the text |
| Utilities.DecodeBuiltHeader | src/utilities.rs:46-84 | round trip: email and token without ':' decode back from "Basic " + Base64(email ":" token) |
| Utilities.RejectsWithoutColon | src/utilities.rs:74-76 | decoded text without ':' is rejected |
| Utilities.SafeThenUnsafe | src/utilities.rs:86-112 | on every header the safe decoder accepts, the unsafe one does not panic and returns the same credentials |
| Utilities.UnsafeIgnoresScheme | src/utilities.rs:88-92 | the unsafe decoder does not look at the first word |
| Text.Split | src/utilities.rs:74 | one more piece than separators, no piece holds the separator |
| Text.JoinSplit | src/utilities.rs:74 | rejoining the pieces gives back the text |
| Text.SplitJoin | src/webhook_logging.rs:20 | splitting a join of separator-free pieces gives back the pieces |
| Text.SplitWhitespace | src/utilities.rs:54 | a text starting with a non-space has a first word starting with that character |
| Text.SplitWhitespaceTokens | src/utilities.rs:54 | no word is empty or holds whitespace |
| Text.SplitWhitespaceWord | src/utilities.rs:54 | a word ending at whitespace is the first word |
| Base64.Encode | src/utilities.rs:46-51 | 4 symbols per started group of 3 bytes, all from the standard alphabet |
| Base64.Decode | src/utilities.rs:66 | a length that is not a multiple of 4 is refused |
| Base64.DecodeEncode | src/utilities.rs:66 | decoding the encoding of any bytes gives them back |
| Utf8.Encode | src/utilities.rs:69 | the UTF-8 form is at least as long as the text |
| Utf8.Decode | src/utilities.rs:69 | decoded text is never longer than the bytes |
| Utf8.DecodeEncode | src/utilities.rs:69 | decoding the UTF-8 form of any text gives it back |
| Utf8.EncodeDecode | src/utilities.rs:69 | every byte sequence `from_utf8` accepts is the UTF-8 form of its text |
| Utf8.EncodeAppend | src/handlers.rs:113-114 | the UTF-8 form of a concatenation is the concatenation of the forms |
| Server.Middleware | server.ts:69-108 | 422 iff the body is not an object; a throw iff it is null; then 403 "Missing playerId", 403 on neither header equal to the secret, 403 "Missing playerToken", 400 iff every progress field is missing (0 counting as missing), and no reply otherwise, each behind the guards before it |
| Server.MalformedFirst | server.ts:73 | a non-object body gets 422 whatever the id and headers |
| Server.RepliesAreErrors | server.ts:73-107 | every reply is 400, 403 or 422 |
| Server.ZeroProgressRefused | server.ts:94-107 | an all-zero progress without booleans is refused with 400 |
| Server.FalseBetaPasses | server.ts:95 | a false beta flag alone passes the 400 guard |
| Server.UnsetSecretAdmitsNoHeader | server.ts:90-91 | with the secret unset, a request with neither header passes the authorization guard |
| Errors.DisplayMessage | src/errors.rs:18-23 | the Display text of a message variant is its prefix followed by its message |
| Errors.DisplayInjective | src/errors.rs:18-23 | two message variants with the same Display text are the same error |
| Errors.StatusCode | src/errors.rs:36-42 | 400 iff BadRequest, 504 iff Timeout, 500 for every other variant |
| Errors.ErrorResponse | src/errors.rs:28-34 | status is `status_code()`, the body is JSON, and the message is the Display text |
| Config.FindKey | src/config.rs:33-41 | found iff some pair has the key, and then the value of the first such pair; otherwise the panic text |
| Config.FindKeyIgnoresLater | src/config.rs:34 | pairs after the first match change nothing |
| WebhookLogging.Colour | src/webhook_logging.rs:12-16 | with distinct colours, each log type has its own colour and the colour tells the type |
| WebhookLogging.Colourise | src/webhook_logging.rs:20 | every word, in order, prefixed by the colour |
| WebhookLogging.Uncolourise | src/webhook_logging.rs:20 | every piece with the colour's length dropped |
| WebhookLogging.Pieces | src/webhook_logging.rs:20 | one piece more than the content has spaces, each starting with the colour |
| WebhookLogging.ContentShape | src/webhook_logging.rs:19 | the posted text is "```ansi\n", the background, the body, and "```" |
| WebhookLogging.BodySplit | src/webhook_logging.rs:20 | splitting the body on spaces gives exactly the coloured pieces |
| WebhookLogging.StripColour | src/webhook_logging.rs:20 | dropping the colour from each piece and rejoining recovers the content |
| WebhookLogging.Webhook.WebhookLog | src/webhook_logging.rs:3-29 | each call posts exactly one coloured message |

## Left out

- Discord, Postgres, the webhook and the MAC are collaborators. They are modelled as
  state (`DiscordApi`, `GuildMember`, `Store`, `Webhook`) or as a function parameter,
  not as network I/O or cryptography.
- RoleHandling.ApplyARole: the `unreachable!()` on a zero role id is a precondition
  (`ValidRoles`), because no configured role id is zero.
- Utilities.BasicAuthDecoder: the panics of its `unwrap`s are a precondition
  (`Decodable`), which `SafeThenUnsafe` shows the safe decoder establishes.
- Floats: the speedrun time (`f32`, compared through `as i32 as f64`, and a JavaScript
  number in the TypeScript revision) is a real compared with `<=`. Metabits and the dino
  rank are whole numbers in both revisions; the source's thresholds are whole numbers and
  the TypeScript paleo prestige is a `Math.floor`, so a fractional value acts like its
  floor. Rounding, NaN, Infinity and JavaScript `null` coercion are not modelled.
  Integers are unbounded; no `i64`/`i32` overflow arises in the modelled code.
- The Base64 decoder is strict RFC 4648 section 4, with padding required and zero unused
  bits. The leniency of the `base64` crate version in use is not modelled.
- `create_user` and `delete_user` (src/handlers.rs:262-424) are work-in-progress routes
  outside the modelled core. The `DistributionChannel` header parsing and the
  `println!` lines are not modelled.
- `Config::new` and `setup_pg_config` read the environment and are not modelled.
  `find_key`'s panic is an error result.
- The webhook network call, its result, and the webhook id parsing are not modelled.
  Only the colour and content formatting are.
- The persistence layer is a map, so the SQL text of `src/db.rs` (with the token spliced
  into it) is not modelled. The Mongoose store of the TypeScript revision is not part of
  this model.
- Db.Store.GetUserdata: a query failure on a token that has a row (src/db.rs:8-16) is not
  modelled; it would end in the same fetch error as a missing row.
- Requests for the same token are not serialised, and this concurrency is not modelled.
- Server.Middleware models only the guard chain. The reply send, Fastify routing and the
  TypeScript route handler are not modelled.
