# QQ guild adapter, modelled in Dafny

This project models the core of the QQ guild ("QQ频道") adapter of a chat-bot
framework: the `QQGuildAdapter` object and the `QQGuild.Token` command in
`index.js`. The model covers these parts:

- **Outbound messages.** `sendMsg` runs a loop over the message's elements. Text, faces and mentions build up one content string. Each image is posted at once. A `reply` rewrites the shared context's `message_id`, and a `node` forwards its messages through nested `sendMsg` calls. The accumulated text goes out last. Also modelled: `sendImage`'s two body forms, `sendFriendMsg` (its guard and its direct-message session), `sendGroupMsg`, `sendForwardMsg` and `recallMsg`.
- **Inbound messages.**
  - The `message` switch on the gateway's event type.
  - `makeMessage`, which cuts the content at every `<@!id>` mention into text and mention pieces and builds `raw_message`.
  - The friend-list upsert of `makeFriendMessage`/`makeGroupMessage`.
- **The registry.**
  - `getGroupArray`/`getGroupList`/`getGroupMap` over the bot's guilds and their channels.
  - `getFriendInfo`/`getMemberInfo`/`getGroupInfo`.
  - The data fields that `pickFriend`/`pickMember`/`pickGroup` compute, including splitting the compound group id `"<guild>-<channel>"`.
- **Accounts.**
  - `connect`: parsing a `sandbox:private:appID:secret` token into a bot configuration; giving up when the platform reports no bot id; registering the account under its id and adding the id to `Bot.uin` without duplicates.
  - The `Token` command, which removes a known token or keeps a new one only if connecting with it succeeds.

## How the model is organised

- **JavaScript values.**
  - A JavaScript object with string fields is `Fields`, a `map<string, string>`.
  - A missing key is `undefined`. Assigning `undefined` drops the key (`Objects.Assign`).
  - `{...a, ...b}` is `Objects.Overlay`. `${v}` prints a missing value as `undefined` (`Strings.Interpolate`).
  - Truthiness of a string field is `Strings.Truthy`: present and not empty.
- **The platform's REST interface** is a `Platform` object.
  - It logs every call in `calls`.
  - Its answers come from a `Responder` parameter: a function of the calls made so far and the new call. The network is thus a parameter, and the model can say which calls are made, in what order and with what bodies.
- **The shared `data` object** that `sendMsg` reads and rewrites is a `Context` object with a `fields` map.
- **The imperative code is kept as methods with loops.** These are `sendMsg`, `sendForwardMsg`, `recallMsg`, `getGroupArray` and its callers, `makeMessage`'s mention loop, the registry `Map`, `Bot.uin` and the token list. Each method is proved equal to a specification function: `RunMsg`, `RunForward`, `GroupArray`, `Scan` and so on. The properties are then proved about those functions.
- **`sendMsg` and `sendForwardMsg` call each other.** `RunMsg`/`RunItems`/`Step`/`StepSeg`/`RunForward` are one mutually recursive family over the message datatypes.

Files:

| file | contents |
|---|---|
| `wrappers.dfy` | `Option` |
| `strings.dfy` | `split`/`join`, prefix and substring search, truthiness, template interpolation |
| `objects.dfy` | field lookup, assignment and object spread |
| `groupids.dfy` | the compound group id and its `split("-")` |
| `mentions.dfy` | the `/<@!.+?>/g` scan, the pieces it yields, their wire and display strings |
| `inbound.dfy` | event dispatch and `makeMessage` |
| `registry.dfy` | friend list, group list, info records, the per-bot `Account` |
| `outbound.dfy` | the send methods and their specification functions |
| `outbound_facts.dfy` | what the specification functions guarantee |
| `accounts.dfy` | token parsing, `connect`, `Bot.uin`, the `Token` command |

## Model

| member | source | states |
|---|---|---|
| Strings.Split | index.js:202 | `split` yields at least one piece and no piece contains the separator |
| Strings.JoinSplit | index.js:202 | joining the pieces of `split` with the same separator gives the string back |
| Strings.SplitJoin | index.js:347 | splitting a join of separator-free pieces gives exactly those pieces back |
| Strings.FirstIndexOf | index.js:258 | the result is an occurrence at or after the start, no occurrence comes before it, and it is absent exactly when there is no occurrence |
| Strings.CutAtFirst | index.js:258-264 | when the match occurs, the first part ends exactly where its first occurrence begins, and the content is that part, the match, then the rest; otherwise the whole content comes first and the rest is empty |
| Objects.Assign | index.js:49 | the assigned key reads the new value (absent for `undefined`), every other key is unchanged |
| Objects.Overlay | index.js:85-91 | a key of the right-hand object reads its value there, every other key reads as in the left-hand one |
| GroupIds.ParseGroupId | index.js:202-208 | neither piece contains `-`, and the channel part is missing exactly when the id has no `-` |
| GroupIds.SplitCount | index.js:202 | `split("-")` yields more than one piece exactly when the string contains `-` |
| GroupIds.GroupIdRoundTrip | index.js:202-208 | splitting `guild-channel` built from two dash-free ids gives both ids back |
| GroupIds.NumericGroupIdRoundTrip | index.js:220-226 | numeric guild and channel ids always survive the round trip |
| GroupIds.DashedChannelTruncated | index.js:202-208 | a `-` inside the channel id cuts it: only the text before that dash comes back |
| Mentions.CloseFrom | index.js:254 | the lazy `.+?` stops at the first `>` reached without crossing a line terminator |
| Mentions.CloseFromFinds | index.js:254 | a `>` reachable without a line terminator means the scan finds one at or before it |
| Mentions.MentionAt | index.js:254 | a match starts with `<@!`, holds at least one character and ends with `>` |
| Mentions.NextMention | index.js:254 | the leftmost match at or after a position; none before it; none at all when absent |
| Mentions.Scan | index.js:253-273 | the pieces of the content; no text piece is empty |
| Mentions.ScanRoundTrip | index.js:253-273 | the texts and `<@!id>` for each mention, concatenated in order, reproduce the content exactly |
| Mentions.ScanWire | index.js:253-273 | conversely, pieces in canonical form (non-empty marker-free texts, no two texts adjacent, valid ids) are recovered by scanning their markup |
| Mentions.ScanIds | index.js:266 | every mention id is what the capture group `(.+?)` can hold |
| Mentions.MentionId | index.js:266 | the id captured by one match is a valid capture |
| Mentions.ScanMarkerFree | index.js:274-276 | content with no `<@!` is exactly one text piece equal to the content |
| Mentions.ScanNoMatch | index.js:270-276 | content with no match yields its text alone, or nothing when empty |
| Mentions.ScanOfMarkup | index.js:254-269 | marker-free text, a `<@!id>` and a tail scan to the text, the mention and the tail's pieces |
| Mentions.WireAppend | index.js:257-273 | the markup of two piece lists is the concatenation of their markups |
| Mentions.DisplayAppend | index.js:262-272 | the display string of two piece lists is the concatenation of their display strings |
| Mentions.MentionTransfer | index.js:258 | a copy of a match's text anywhere is a match of the same length |
| Mentions.MatchAlone | index.js:266 | replacing within a match's own text yields exactly the captured id |
| Mentions.MatchFirstOccurrence | index.js:258 | the first occurrence of a match's text is the match itself, so `split` cuts there |
| Mentions.CutStep | index.js:257-267 | one split/shift/join turn leaves the remaining matches for the rest and splits the pieces around the mention |
| Mentions.ScanExample | index.js:253-273 | `hello <@!123> world` yields a text, a mention of `123` and a text |
| Mentions.DisplayExample | index.js:262-272 | those pieces display as `hello [提及：123] world` |
| Inbound.Dispatch | index.js:326-343 | a group message exactly for `MESSAGE_CREATE` and `AT_MESSAGE_CREATE`, a private one exactly for `DIRECT_MESSAGE_CREATE`, nothing for deletions and other events |
| Inbound.CutMentions | index.js:253-277 | the pieces are the scan of the content and `raw_message` is their display string |
| Inbound.CutEachMatch | index.js:257-269 | after the loop the pieces so far and the scan of the rest make up the scan of the content, the rest has no match, and `raw_message` displays the pieces |
| Inbound.CutTurn | index.js:258-268 | one turn appends the text before the match (unless empty) and the mention, and keeps the text after the match |
| Inbound.Turn | index.js:257-269 | one turn keeps the loop's invariant |
| Inbound.MakeMessage | index.js:239-281 | the record carries the author's id as `user_id`, the sender, the `guild-channel` group id and the message id; its pieces reproduce the content, no text piece is empty, `raw_message` displays them, and absent or empty content gives no pieces and an empty `raw_message`; the record is the loop-free `MessageOf` of the payload |
| Registry.FriendEntry | index.js:286-311 | the new entry has the sender's id, nickname and avatar; a group message records `source_guild_id`/`source_channel_id`, a direct one `guild_id`/`channel_id`; every other key reads the author's value, else the old entry's |
| Registry.WithSender | index.js:288-289 | the three sender keys come from the sender and every other key is unchanged |
| Registry.WithLocation | index.js:290-291 | the two location keys are set and every other key is unchanged |
| Registry.RegisteredOthers | index.js:305 | the upsert leaves every other user's entry, and its presence, unchanged |
| Registry.FriendEntryStable | index.js:305-311 | each field of an entry is the same after a second upsert for the same message |
| Registry.FriendEntryIdempotent | index.js:305-311 | upserting the entry twice for the same message equals upserting it once |
| Registry.RegisteredIdempotent | index.js:286-292 | registering the same message twice leaves the friend list as registering it once |
| Registry.GroupEntry | index.js:128-133 | a group record is the guild's fields overlaid with the channel's, plus `group_id` `guild-channel` and `group_name` `guildname-channelname` |
| Registry.GuildGroups | index.js:127-133 | one record per channel of the guild, in the listing's order |
| Registry.ContributedMembers | index.js:126-136 | a record comes from a guild exactly when it is the record of one of its listed channels; a failed listing contributes nothing |
| Registry.FromGuildsLast | index.js:126-136 | a record comes from some guild exactly when it comes from one of the earlier guilds or from the last one |
| Registry.GroupArrayMembers | index.js:124-138 | a record is in the array exactly when it is the record of some listed channel of some guild |
| Registry.GroupArrayIds | index.js:131 | every `group_id` in the array is `guildId-channelId` of a guild and one of its listed channels |
| Registry.GetGroupArray | index.js:124-138 | the nested loops produce every guild's channel records, guild after guild |
| Registry.GuildEntries | index.js:127-133 | the inner loop produces one record per channel, in order |
| Registry.GetGroupList | index.js:140-145 | one id per record of the array, in the same order |
| Registry.ListIds | index.js:141-144 | the loop maps every record to its `group_id` |
| Registry.GroupMapLastWins | index.js:147-152 | an id is a key of the map exactly when some record has it, and it maps to the last record with that id |
| Registry.GetGroupMap | index.js:147-152 | the map is the group map of the whole array |
| Registry.MapById | index.js:148-151 | the loop's `map.set` calls build the group map |
| Registry.MemberInfo | index.js:160-169 | the member's id and avatar come from `user`, the nickname from `nick`, and every other key from the member data, else the caller's data |
| Registry.FriendInfo | index.js:154-168 | without a truthy `source_guild_id` the data is returned as it is; with one, the caller gets the member's user id and avatar from `user`, its nickname from `nick`, and every other key from the member record, else from the data |
| Registry.GroupInfo | index.js:171-181 | the record carries `guild-channel` as `group_id` and the two names as `group_name`; every other key reads from the channel if it has it, else from the guild, else from the caller's data |
| Registry.Account.constructor | index.js:381-403 | the account has its id, the `username` and `avatar` of the bot info, an empty friend list and the given group map |
| Registry.Account.PickFriend | index.js:183-190 | the friend's stored entry with `self_id` and `user_id` set |
| Registry.Account.PickMember | index.js:201-213 | the friend's stored entry with `self_id`, `user_id` and the split group id as `source_guild_id`/`source_channel_id` |
| Registry.Account.PickGroup | index.js:219-227 | the stored group record with `self_id` and the split group id as `guild_id`/`channel_id` |
| Registry.Account.MakeTypedMessage | index.js:283-321 | the message record is `makeMessage`'s record of the payload; the friend list gets the sender's upsert, whose entry holds the author's id, user name and avatar and the message's guild and channel under the keys of its type; nothing else changes, and the events `message.<type>` then `message` are emitted |
| Registry.Account.OnEvent | index.js:323-344 | ignored events change nothing and emit nothing; a handled one returns `makeMessage`'s record of the payload, upserts the sender under the dispatched type with the author's fields and the message's location, and emits its two events |
| Registry.PickFriendAfterMessage | index.js:305-314 | after a message, looking up its sender in the friend list finds the upserted entry, with the sender's nickname and, for a group message, its guild |
| Registry.PickGroupOfMessage | index.js:219-226 | picking a group by the id a message was given recovers its guild and channel |
| Registry.PickMemberOfGroup | index.js:201-208 | picking a member by that id recovers the guild and channel as its source |
| Outbound.IdsOf | index.js:70-74 | at most one id per response |
| Outbound.Platform.Request | index.js:20 | one call is appended to the log and answered by the platform |
| Outbound.SendImage | index.js:13-24 | exactly one call: multipart with the payload after `base64://` and `msg_id` only when `message_id` is truthy, otherwise `{image, msg_id}` |
| Outbound.SendMsg | index.js:26-76 | the calls made, the final context and the result are those of the specification `RunMsg` |
| Outbound.SendElement | index.js:33-37 | one element, a non-object wrapped as text, is one step of the specification |
| Outbound.SendSegment | index.js:38-65 | each segment type does what one step of the specification does |
| Outbound.Gather | index.js:58-61 | the node results' data and ids are appended in order |
| Outbound.Collect | index.js:70-75 | the node data comes first, then every response in call order; the ids are the node ids, then the `data.id` of exactly those responses that have one |
| Outbound.SendForward | index.js:117-122 | one `sendMsg` per message of the node, in order, as the specification `RunForward` says |
| Outbound.SendGroupMsg | index.js:100-105 | `sendMsg` routed to the context's channel |
| Outbound.SendFriendMsg | index.js:78-98 | the calls made, the final context and the result are those of the specification `FriendSend` |
| Outbound.DeleteCalls | index.js:112-113 | one delete per id, in order, on the context's channel with the given `hide` |
| Outbound.Replay | index.js:113 | one answer per call |
| Outbound.Recall | index.js:107-115 | an id or an array of ids becomes one delete call each, in order, and the answers are returned in that order |
| OutboundFacts.RunForwardOutcomes | index.js:117-122 | a node yields exactly one outcome per message, and the `k`-th is `sendMsg` of the `k`-th message sent from the state the earlier messages left |
| OutboundFacts.RunMsgGrows | index.js:26-76 | `sendMsg` only appends calls, returns one response per call it makes, and changes no context field but `message_id` |
| OutboundFacts.RunForwardGrows | index.js:117-122 | a node of N messages makes N sends with N results, in order, only appending calls |
| OutboundFacts.RunMsgIds | index.js:70-75 | the returned `message_id` list is exactly the ids found in the returned `data`, in its order |
| OutboundFacts.RunForwardIds | index.js:57-62 | every result of a node lists exactly the ids of its own data |
| OutboundFacts.AllIdsConsistent | index.js:58-61 | a node's gathered ids are then the ids of its gathered data |
| OutboundFacts.IdsOfAppend | index.js:70-74 | the ids of two response lists are the ids of each, concatenated |
| OutboundFacts.ApplyRepliesGet | index.js:48-49 | after several replies the `message_id` is the last one's id (unchanged without any), and no other field changes |
| OutboundFacts.ApplyRepliesAppend | index.js:48-49 | applying two lists of replies is applying the first, then the second |
| OutboundFacts.RunMsgReplies | index.js:48-49 | the context after `sendMsg` is the context before with every reply, nested nodes included, applied in order |
| OutboundFacts.RunForwardReplies | index.js:57-58 | the nested sends of a node share the context: their replies apply in order |
| OutboundFacts.LastReplyWins | index.js:48-49 | the context's `message_id` after `sendMsg` is the last reply's id, or unchanged without one |
| OutboundFacts.AccumulatedCons | index.js:39-64 | the text of a message is its first element's rendering followed by the text of the rest |
| OutboundFacts.AccumulatedEmpty | index.js:67 | the text is empty exactly when every element renders to nothing |
| OutboundFacts.RunItemsText | index.js:33-66 | after `n` elements the accumulator is their renderings concatenated in order: text verbatim, `<emoji:id>`, `@everyone` or `<@qq>`, the JSON of an unknown segment |
| OutboundFacts.FinalContent | index.js:67-68 | with non-empty text exactly one more call is made, a content post of all the text with the final `message_id`, after every other call; with empty text no call is made |
| OutboundFacts.TextStep | index.js:39-64 | reading an element moves its rendering from the rest of the message into the text |
| OutboundFacts.FlatPlanLength | index.js:42-68 | a message without nodes makes one call per image plus one content call iff its text is not empty |
| OutboundFacts.FlatPlanImages | index.js:42-43 | the first calls, one per image, are image posts |
| OutboundFacts.FlatPlanLast | index.js:67-68 | when there is text, the last call posts all of it |
| OutboundFacts.FlatPlanShape | index.js:33-68 | the three facts above together |
| OutboundFacts.FlatStep | index.js:38-65 | one element of a message without nodes makes the call, if any, that the plan makes there |
| OutboundFacts.FlatRunItems | index.js:33-66 | the loop over a message without nodes makes the plan's calls so far and returns their answers |
| OutboundFacts.FlatRun | index.js:26-76 | a message without nodes makes exactly the planned calls in order (each image with the `message_id` in force at that point), and returns the platform's answers to them in order |
| OutboundFacts.FriendSendGuard | index.js:78-98 | nothing is sent exactly when the context has neither `guild_id` nor `source_guild_id`, and then nothing changes |
| OutboundFacts.FriendSession | index.js:84-92 | with only a source guild, the first call opens a direct-message session for the user, and the caller's fields keep their `message_id` because the send works on a copy |
| Accounts.Intents | index.js:349-360 | the six base intents, then guild messages and forums for a private bot, the public variants otherwise |
| Accounts.TokenRoundTrip | index.js:346-367 | a token of four colon-free parts yields the app id, the secret, the intents for the private flag and the sandbox flag |
| Accounts.SecretWithColonTruncated | index.js:347-364 | a secret containing `:` is cut at its first colon |
| Accounts.BotInfo | index.js:372-375 | the bot info reads the `me` data's value, else the `READY` user's |
| Accounts.ConnectedId | index.js:376-381 | a connection has an id exactly when `bot.info.id` is truthy |
| Accounts.AddUin | index.js:405-406 | the id is added only when absent: membership grows by exactly the id, order is kept, and the list stays free of duplicates |
| Accounts.Hub.Connect | index.js:346-416 | the configuration is parsed from the token; without an id nothing changes and the result is false; otherwise the account is registered under its id with its info, an empty friend list and the group map, and the id joins `Bot.uin` once; the events `connect.<id>` then `connect` are emitted exactly on success |
| Accounts.Without | index.js:455 | `filter` keeps exactly the other tokens |
| Accounts.WithoutAppend | index.js:455 | filtering a concatenation filters each part |
| Accounts.WithoutAbsent | index.js:455 | filtering out an absent token changes nothing |
| Accounts.Toggled | index.js:454-460 | after the command the token is listed exactly when it was not and the connection succeeds; every other token is kept |
| Accounts.ToggleTwice | index.js:452-467 | adding a token and giving the command again restores the list exactly |
| Accounts.Token | index.js:452-467 | the list is toggled as above, the configuration is saved except after a failed connection, and a known token only removes and does not connect; a new token leaves the hub unchanged when the platform reports no id, and otherwise registers a fresh account under the id, as `connect` does, and adds the id to `Bot.uin` once |

## Left out

- `message_type` on the emitted record: `Inbound.Message` has no such field. The type is `Registry.Account.MakeTypedMessage`'s argument `t`, and it appears in the event name `message.<type>`.
- Logging, and `Bot.emit` beyond the names of the events emitted (`message.<type>`/`message` and `connect.<id>`/`connect`): side effects with no logic.
- `Date.now()` and the `version`/`stat` fields of a connected bot: clock and constant metadata.
- All `qq-guild-bot` calls (`createOpenAPI`, `createWebsocket`, the websocket handlers and the `READY` handshake, every REST endpoint): only what the adapter does with the answers is modelled. The answers enter the model in these ways:
  - The sends, deletions and `createDirectMessage` are answered by the `Responder` of `Outbound.Platform`, and those requests are modelled call by call.
  - The `READY` user and `me` are arguments of `Accounts.Hub.Connect` and `Accounts.Token`.
  - The `meGuilds` and `channels` listings are the `guilds`/`channels` arguments of `Registry.GetGroupArray`, `Registry.GetGroupList`, `Registry.GetGroupMap`, `Accounts.Hub.Connect` and `Accounts.Token`.
  - The `guildMember` answer is the `info`/`user` arguments of `Registry.MemberInfo` and `Registry.FriendInfo`.
  - The `guild` and `channel` answers are the `guild`/`channel` arguments of `Registry.GroupInfo`.
  - For these last three groups the request itself is not modelled. The model does not say which guild, channel or member is fetched from `data.source_guild_id`, `data.user_id`, `data.guild_id` or `data.channel_id` (index.js:161, 172-173), nor which guild's channels are listed.
- `FormData`, `Blob` and `Buffer`: the multipart body carries the text after `base64://` instead of the decoded bytes.
- `JSON.stringify` of an unknown segment: such a segment carries its serialised text.
- Closure-valued fields built by `pickFriend`/`pickMember`/`pickGroup`, `makeForwardMsg` and `pickUser`: no data of their own. They only forward to the modelled sends.
- The `data.friend`, `data.group`, `data.member` and `data.reply` attachments of a message record: they are those closures. The `pickFriend`/`pickGroup`/`pickMember` results they hold are modelled.
- `Model/config.js`, `configSave`, `load()` and the `List` command: file I/O and replies without logic.
- The command regex, the prefix removal and the `trim` in `Token`: the token is given already extracted.
- `getGroupArray`'s guild listing (`meGuilds`) is given as its result; a failure of that listing, which `getGroupArray` does not catch, is not modelled. A failed channel listing is modelled as contributing nothing.
- Accounts.NumberTruthy: `Number(...)` is modelled for strings of decimal digits only; any other string counts as `NaN`, which differs from JavaScript for forms such as `" 1"` or `"0x1"` that the command regex never lets through for the two flags.
- Fields are strings: a present key whose value is `undefined`, or a non-string value, is modelled as an absent key or is out of scope.
- `message_id` written by a `reply` with no id drops the key, as assigning `undefined` makes it read as absent.
- Concurrency: the model runs every `await` in program order. A caller that starts two sends on the same context without awaiting the first, such as two `sendMsg` calls on the object a `pickGroup` result captures, lets their writes of `message_id` interleave at each `await`. The model does not capture that interleaving.
- Outbound.Platform.Request: the `Responder` is total, so every platform call is answered. A rejected call aborts `sendMsg`, `recallMsg` or `sendFriendMsg` partway, after the earlier posts or deletions were already made. That error path is not modelled.
- Outbound.SendImage: an image segment without `file` throws in the source when it calls `replace` on it; the model's `Image` always carries a file.
- Outbound.SendElement: a `null` element of a message throws in the source's `!i.data` test; the model's elements are never `null`.
- Outbound.SendSegment: a `node` segment written flat, without `data`, throws in the source because its data object is not iterable; the model's `Node` always carries its messages.
- Inbound.MakeMessage: a payload without `author` throws in the source; the model's `author` is always an object, possibly empty.
