# PlayerMatchingBackend in Dafny

A model of the backend of a basketball-game player-matching site, written in Dafny. The site has:

- user accounts with JWT login;
- player cards that users create, list, search, edit and delete;
- two-party conversations with messages, over HTTP and over Socket.IO (live delivery and presence);
- an admin area (user list, ban, unban, statistics);
- the CORS origin lists.

The model has these parts:

- **The database** is the class `Store.Db`. It holds four collections (`users`, `players`, `conversations`, `messages`), each a sequence of documents in MongoDB's natural (insertion) order, and `clock`, the latest clock reading stamped into a conversation or message. `Db.Valid()` is what holds between requests:
  - every document passed its schema validators;
  - ids, usernames and e-mails are unique;
  - no two conversations hold the same pair of users;
  - messages are stored in timestamp order, and each belongs to a conversation whose `updatedAt` is not before it;
  - every conversation's `lastMessage` is its most recently stored message.

  Every route that writes to the database is a method on a `Db` that requires and ensures `Valid()`. Its contract states the new contents of each collection, and "nothing else changes".
- **Mongoose queries** (`findById`, `findOne`, `find`, `$set`, delete, `countDocuments`, `sort`) are functions over those sequences (module `Collection`), with lemmas about their interplay.
- **The schemas** (modules `UserModel`, `PlayerModel`, `MessageModel`, `ConversationModel`) give:
  - the stored fields;
  - the defaults a new document gets;
  - the `trim`/`lowercase` setters (module `Text`);
  - the validators, as predicates;
  - "a new document saves exactly when …" lemmas.
- **Each route handler** is a function (read-only routes) or a method (routes that write). Its contract lists every error answer in the order the handler checks for it, and the success answer with the state it leaves behind. The routes are in `AuthRoutes`, `UserRoutes`, `PlayerRoutes`, `ConversationRoutes`, `MessageRoutes` and `AdminRoutes`, plus the `auth`/`adminAuth` middleware in `AuthMiddleware`.
- **The Socket.IO server** is the class `Server.Io`. It holds the connected sockets, the room table and the log of emissions. Its handlers (`joinRoom`, `sendMessage`, `goOnline`/`goOffline`, `disconnect`) are methods on it and on the shared `Db`.
- **The CORS lists**: the HTTP server's origin list and origin check (`Server`), and the separate helper `getAllowedOrigins` (`CorsConfig`).

Foreign code is passed in as function parameters: ObjectId validity, JWT sign and verify, bcrypt hash and compare, `Number.parseInt`, and the user-supplied `$regex` search. New ObjectIds and clock readings are parameters too, and clock readings are required to be monotonic.

Where the comments in the code say otherwise, the model follows the code as written:

- **Player console key.** Create reads the console from the key `console1`. Edit reads it from the key `console`.
- **Opening a conversation.** Nothing checks that the other user exists or differs from the caller.
- **Socket `sendMessage`.** It trusts the `senderId` in the payload.
- **Socket `joinRoom`.** It lets any socket into any room with a well-formed id.
- **Where each list is used.** `config/cors.js` is not used by the server. The server builds its own, shorter list.

## Model

| member | source | states |
|---|---|---|
| Text.Trim | models/user.js:8-15 | the `trim` setter's result has no whitespace at either end |
| Text.TrimOnlyCutsSpace | models/message.js:18-24 | `trim` returns a slice of its input with only whitespace cut off on either side |
| Text.TrimIdempotent | models/player.js:13-19 | trimming a trimmed value changes nothing, so re-saving a stored name leaves it alone |
| Text.ToLower | models/user.js:16-23 | the `lowercase` setter keeps the length and lowers each letter in place |
| Text.ToLowerIdempotent | models/user.js:16-23 | lower-casing twice is lower-casing once |
| Text.NormalizedEmailIff | models/user.js:16-23 | an e-mail is a fixed point of `trim` + `lowercase` exactly when it is trimmed and lower-case |
| Text.NormalizeEmailIdempotent | models/user.js:16-23 | applying the e-mail setters to a stored e-mail gives it back unchanged |
| Text.NormalizeEmailNormalized | models/user.js:16-23 | what the e-mail setters store is trimmed and lower-case |
| Text.LowerKeepsEmailShape | models/user.js:16-23 | lower-casing never breaks the `^\S+@\S+\.\S+$` pattern |
| Collection.Find | routes/player.js:128-134 | `findById` returns a document with that id, and returns nothing exactly when no document carries it |
| Collection.FindAt | middleware/auth.js:16-20 | with unique ids, `findById` returns the one document carrying the id |
| Collection.FindAppend | routes/player.js:66 | after a save, the new document is found by its id and every other lookup is unchanged |
| Collection.FirstIndex | routes/conversation.js:15-17 | `findOne` returns the first document in natural order that matches, and none before it matches |
| Collection.Update | routes/player.js:194-198 | `$set` by id keeps the length and every id; it replaces the matching body and leaves the rest alone |
| Collection.FindAfterUpdate | routes/player.js:194-198 | after `$set`, the updated document is found with its new body and every other lookup is unchanged |
| Collection.Where | routes/conversation.js:41 | `find(filter)` keeps exactly the matching documents of the collection |
| Collection.WhereMembers | routes/conversation.js:41 | a value is in the `find` result exactly when it is stored and matches |
| Collection.Remove | routes/player.js:225 | delete by id removes every document with that id and keeps every other one |
| Collection.RemoveUnique | routes/player.js:225 | after deletion the ids stay unique and the id is no longer found |
| Collection.WhereSize | routes/admin.js:85-90 | the filter keeps one document per matching position |
| Collection.Count | routes/admin.js:83-96 | `countDocuments` is the number of matching documents, and at most the collection size |
| Collection.SortBy | routes/conversation.js:44 | `sort` returns a permutation of its input, in key order |
| Collection.SortByMembers | routes/conversation.js:44 | sorting neither adds nor loses documents |
| Collection.SortByFixesSorted | routes/message.js:64 | sorting a sequence already in key order returns it unchanged |
| Collection.WhereSorted | routes/message.js:62-64 | a filter of a sequence in key order is in key order |
| ConversationModel.NewConversation | models/conversation.js:8-26 | a new conversation has the given participants, no last message, and both times at creation |
| ConversationModel.PreSave | models/conversation.js:30-33 | the pre-save hook sets `updatedAt` to the save time and changes nothing else |
| ConversationModel.PreSaveOverridesAssignment | models/conversation.js:30-33 | a value assigned to `updatedAt` before a save is lost |
| ConversationModel.RecordMessage | routes/message.js:35-37 | after the bookkeeping, `lastMessage` is the new message and `updatedAt` is the save time; participants and creation time are kept |
| ConversationModel.HasBothSymmetric | routes/conversation.js:15-17 | the `$all` filter ignores the order of the two ids |
| MessageModel.NewMessage | models/message.js:8-34 | a new message has the given conversation and sender, trimmed content, the creation time, and an empty read-by list |
| MessageModel.NewMessageValidIff | models/message.js:18-24 | a new message saves exactly when its trimmed content has 1 to 2000 characters |
| MessageModel.BlankContentRejected | models/message.js:18-24 | all-whitespace or empty content never saves |
| PlayerModel.CastBadge | models/player.js:31-43 | a badge keeps its name; a missing level becomes Bronze |
| PlayerModel.CastBadges | models/player.js:31-43 | the cast badge list has one cast badge per input badge, in order |
| PlayerModel.CastAttributes | models/player.js:83-109 | the cast attributes hold all 22 numeric ratings, and each one the client left out is 0 |
| PlayerModel.CastBadgeValidIff | models/player.js:31-43 | a cast badge is valid exactly when it has a non-empty name and its level, if given, is one of the five |
| PlayerModel.CastAttributesValidIff | models/player.js:83-109 | cast attributes are valid exactly when height, weight and wingspan are given and every rating sent is in [0, 99] |
| UserModel.NewUser | models/user.js:3-101 | a new user stores the trimmed username, the normalised e-mail and the given password; it is offline, neither admin nor banned, and owns no players |
| UserModel.NewUserValidIff | models/user.js:8-73 | a new user saves exactly when its trimmed username has 3 to 30 characters, its normalised e-mail matches the pattern, and its password has at least 6 characters |
| UserModel.FindByEmail | routes/auth.js:25 | `findOne({email})` returns the first user whose stored e-mail equals the normalised query, and returns nothing exactly when no user has it |
| UserModel.FindByUsername | routes/auth.js:31 | `findOne({username})` returns the first user whose stored username equals the trimmed query, and returns nothing exactly when no user has it |
| UserModel.FindByEmailAppended | routes/auth.js:25-48 | a user saved with an e-mail nobody held is the one `findOne({email})` then finds |
| UserModel.InsertKeepsUsersOk | models/user.js:103-105 | inserting a valid user whose id, username and e-mail are unused keeps ids and both unique indexes unique |
| UserModel.UpdateKeepsUsersOk | models/user.js:103-105 | replacing a user with a valid one whose username and e-mail no other user holds keeps the indexes unique |
| UserModel.SameAccountIsFree | models/user.js:103-105 | an update that keeps a user's own username and e-mail never clashes with another account |
| Store.LastOf | routes/message.js:35-37 | finds a stored message of the conversation, or nothing exactly when it has none |
| Store.LastOfAppend | routes/message.js:35-37 | a stored message becomes the last of its own conversation and changes no other conversation's last |
| Store.NewPairOfTwo | routes/conversation.js:15-26 | a two-party conversation created when `findOne` found no conversation holding both users repeats no stored pair |
| Store.AppendKeepsConversationsOk | models/conversation.js:30-33 | recording a message keeps participants, pair uniqueness, and `createdAt <= updatedAt <= clock` |
| Store.AppendKeepsMessagesOk | routes/message.js:26-32 | storing a valid message stamped at or after the clock keeps the messages unique, valid and in timestamp order |
| Store.AppendKeepsFiled | routes/message.js:32-37 | after the append and the save, every message belongs to a conversation whose `updatedAt` is not before it |
| Store.AppendKeepsLast | routes/message.js:35-37 | after the append, the recorded conversation points at the new message and every other `lastMessage` is still its newest message |
| Store.AppendKeepsChatOk | routes/message.js:26-37 | storing a message and recording it in its conversation keeps the whole chat state consistent |
| Store.CreateKeepsChatOk | routes/conversation.js:24-28 | saving a new conversation with no messages and an unused pair keeps the chat state consistent |
| Store.Db.InsertUser | routes/auth.js:48 | `save()` of a new valid user appends it, keeps `Valid()`, and changes nothing else |
| Store.Db.ReplaceUser | routes/user.js:76-80 | writing back a user replaces its body, keeps `Valid()`, and changes nothing else |
| Store.Db.InsertPlayer | routes/player.js:66 | `save()` of a valid player appends it, keeps `Valid()`, and changes nothing else |
| Store.Db.ReplacePlayer | routes/player.js:194-198 | `findByIdAndUpdate` of a valid player replaces it, keeps `Valid()`, and changes nothing else |
| Store.Db.DeletePlayer | routes/player.js:225 | `findByIdAndDelete` removes the player, keeps `Valid()`, and changes nothing else |
| Store.Db.InsertConversation | routes/conversation.js:24-28 | a conversation with a new pair and no last message is appended, the clock moves to its `updatedAt`, `Valid()` holds, and nothing else changes |
| Store.Db.AppendMessage | routes/message.js:26-37 | stores the message and saves the conversation with the new `lastMessage` and `updatedAt`; advances the clock, and keeps `Valid()` |
| AuthMiddleware.Authenticate | middleware/auth.js:4-31 | 401 without a token; 401 for a bad token or an unknown user; 403 with the ban reason for a banned user; otherwise passes on the stored, unbanned user the token names |
| AuthMiddleware.AuthenticateAccepts | middleware/auth.js:26-27 | a valid token for a stored, unbanned user always passes, with that user as `req.user` |
| AuthMiddleware.AuthenticateRejectsBanned | middleware/auth.js:22-24 | a valid token for a banned user gets 403 with that user's ban reason |
| AuthMiddleware.AdminAuthenticate | middleware/auth.js:33-44 | rejects everything `auth` rejects, in the same way; of what `auth` passes, only admins get through, and the rest get 403 |
| AuthRoutes.Register | routes/auth.js:11-74 | 400 checks in order: missing field, short password, known e-mail, known username. Otherwise the user is stored with the hashed password, and the answer carries the token and the id, username and e-mail. A failed save is 500 with nothing stored |
| AuthRoutes.UserDataOf | routes/auth.js:122-140 | the login answer's user carries the stored id, username, e-mail and the admin and ban flags |
| AuthRoutes.Login | routes/auth.js:79-148 | 400 without both fields. Success exactly for a stored, unbanned user whose password `compare` accepts, and then the answer carries that user's public data. 403 carries the found user's ban reason. Every other error is 400 |
| AuthRoutes.LoginHidesWhichCheckFailed | routes/auth.js:89-106 | an unknown e-mail and a wrong password get the identical answer |
| AuthRoutes.LoginBanCheckPrecedesPassword | routes/auth.js:94-106 | a banned user gets the same 403 whatever password is sent and whatever `compare` says |
| AuthRoutes.LoginAfterRegister | routes/auth.js:37-106 | after register stores a user, logging in with the same e-mail and password succeeds for that user |
| UserRoutes.BuildUserFields | routes/user.js:40-53 | `userFields` holds username, e-mail and visibility only when truthy, the three strings when given, and the flags only as booleans. `isOnline` comes with `lastSeen`: null when going online, `now` when going offline |
| UserRoutes.ApplyUserFields | routes/user.js:76-80 | `$set` writes username and e-mail through their setters and never touches join date, players, avatar, the admin flag or the ban fields |
| UserRoutes.ApplyUserFieldsIdempotent | routes/user.js:76-80 | applying the same update twice stores what applying it once stores |
| UserRoutes.ApplyNoFields | routes/user.js:76-80 | an empty `userFields` leaves the profile as it is |
| UserRoutes.Requested | routes/user.js:40-53 | the intended new profile, stated on the request body: join date, players, count, avatar, admin flag and ban fields stay as stored, and an online user's `lastSeen` is null or unchanged |
| UserRoutes.BuiltFieldsGiveRequested | routes/user.js:40-80 | the `$set` of the fields the builder picked yields exactly the intended profile |
| UserRoutes.ChecksLeaveAccountFree | routes/user.js:62-87 | when neither the e-mail check nor the username check fires, no other account holds the stored username or e-mail, so the 11000 answer cannot occur |
| UserRoutes.UsernameCheckLeavesFree | routes/user.js:69-74 | when the username check passes, no other account holds the username the update stores |
| UserRoutes.EmailCheckLeavesFree | routes/user.js:63-68 | when the e-mail check passes, no other account holds the e-mail the update stores |
| UserRoutes.CheckProfileUpdate | routes/user.js:55-74 | 404 for a missing caller; 400 "Email already in use" (checked first); 400 "Username already taken"; 500 for an invalid profile; otherwise 200 with the intended profile |
| UserRoutes.PutMe | routes/user.js:27-90 | the same answers as the checks, and on success the caller's document (and only it) gets the intended profile; on any error nothing is written |
| UserRoutes.GetMe | routes/user.js:11-22 | 200 with the caller's stored profile, or 404 exactly when the caller's document is gone |
| UserRoutes.PublicView | routes/user.js:100-102 | the public answer carries the id, username and online flag of the stored user, and no e-mail, password or ban data |
| UserRoutes.GetUser | routes/user.js:95-114 | 400 for an invalid id; 404 for an unknown one; otherwise 200 with the public fields of that user |
| AdminRoutes.ListUsers | routes/admin.js:9-16 | every user in natural order, with id and profile but no password |
| AdminRoutes.BanProfile | routes/admin.js:28-32 | ban sets the flag, the reason, the banning admin and the date, and changes nothing else |
| AdminRoutes.UnbanProfile | routes/admin.js:49-53 | unban clears the four ban fields whatever they held, and changes nothing else |
| AdminRoutes.UnbanIdempotent | routes/admin.js:49-53 | unbanning twice is unbanning once |
| AdminRoutes.UnbanUndoesBan | routes/admin.js:28-53 | ban then unban leaves the profile as unban alone would |
| AdminRoutes.BanFieldsKeepStoredOk | routes/admin.js:28-53 | ban and unban keep a stored user valid and normalised |
| AdminRoutes.SetBan | routes/admin.js:19-59 | 500 for an id `findById` cannot cast; 404 for an unknown user, with nothing changed. Otherwise only that user's ban fields change, with the success message |
| AdminRoutes.GetStats | routes/admin.js:83-96 | total users and players are the collection sizes; the banned and online counts are the numbers of users whose profile is banned and online respectively |
| AdminRoutes.BanCountsOnce | routes/admin.js:28-32 | banning a user who was not banned raises the banned count by exactly one |
| ConversationRoutes.Existing | routes/conversation.js:15-17 | the found conversation is stored and holds both users; nothing is found exactly when no stored conversation holds both |
| ConversationRoutes.ExistingSymmetric | routes/conversation.js:16 | looking up (A, B) finds what looking up (B, A) finds |
| ConversationRoutes.OpenedIsFoundByOther | routes/conversation.js:15-29 | once A opens a new conversation with B, B opening with A gets that same conversation |
| ConversationRoutes.Open | routes/conversation.js:10-34 | 500 for an invalid id. An existing conversation holding both is returned with 200 and nothing changes. Otherwise `[me, participantId]` is created with 201, or 500 for a taken id. The answer always holds both users |
| ConversationRoutes.Mine | routes/conversation.js:41 | a conversation is in the result exactly when it is stored and names the caller |
| ConversationRoutes.ListConversations | routes/conversation.js:39-51 | the caller's conversations, as a permutation, most recent `updatedAt` first |
| ConversationRoutes.ListedIff | routes/conversation.js:41-44 | a conversation is listed exactly when it is stored and names the caller |
| ConversationRoutes.GetConversation | routes/conversation.js:56-80 | 200 exactly for a valid id of a stored conversation naming the caller; 401 exactly for a non-participant; 404 otherwise |
| ConversationRoutes.ListedCanBeFetched | routes/conversation.js:41-72 | every conversation listed for the caller can be fetched by the caller |
| MessageRoutes.Send | routes/message.js:11-44 | 404 for a missing conversation id; 500 for an invalid id; 404 for an unknown conversation; 401 for a non-participant. The sender is the caller. On success the message is stored, the conversation is recorded, and the answer is 201. A failed save is 500 with nothing changed |
| MessageRoutes.Thread | routes/message.js:62 | a message is in the thread exactly when it is stored and belongs to the conversation |
| MessageRoutes.History | routes/message.js:62-64 | the conversation's messages, as a permutation, in ascending timestamp order |
| MessageRoutes.GetMessages | routes/message.js:49-74 | 200 with the history exactly for a valid id of a stored conversation naming the caller; 401 exactly for a non-participant; 404 otherwise |
| MessageRoutes.HistoryIsSendOrder | routes/message.js:62-64 | in a consistent store the sorted history is the order the messages were sent in |
| MessageRoutes.HistoryAfterSend | routes/message.js:26-64 | a sent message shows up at the end of its conversation's history, after everything that was there |
| MessageRoutes.OtherHistoriesUnchanged | routes/message.js:62-64 | sending into one conversation leaves every other history unchanged |
| MessageRoutes.LastMessageEndsHistory | routes/message.js:35-64 | a conversation's `lastMessage` is the newest entry of its history, and is unset exactly when the history is empty |
| PlayerRoutes.Card | routes/player.js:128-137 | the populated owner card exists exactly when the owner is stored, and carries its id and username |
| PlayerRoutes.NewPlayer | routes/player.js:49-64 | the owner is the caller, the name is trimmed, and the console comes from `console1`. `isAvailable` is true unless given. Missing pictures get the placeholder. Counters, modes and join date take their defaults |
| PlayerRoutes.NewPlayerValidIff | routes/player.js:49-66 | the new player saves exactly when the client's name, position, rating, badges, console, time zone, attributes and bio are in range; an `attributes` object is mandatory |
| PlayerRoutes.Owned | routes/player.js:69-72 | `$push` appends the player id to the owner's list, `$inc` raises the count by one, and nothing else changes |
| PlayerRoutes.Disowned | routes/player.js:226-229 | `$pull` removes every copy of the id and keeps the others, `$inc` lowers the count by one, and nothing else changes |
| PlayerRoutes.DisownUndoesOwn | routes/player.js:226-229 | deleting a just-created player gives the owner back the exact profile it had |
| PlayerRoutes.Create | routes/player.js:18-79 | 400 without `playerData`; 400 without one of the five required fields; 500 for an invalid document or a taken id. Otherwise 201 with the new player, appended, and the owner (if stored) gets `Owned`. On error nothing is written |
| PlayerRoutes.Parse | routes/player.js:92-93 | a bound is a number exactly when `parseInt` yields one |
| PlayerRoutes.OnlineIds | routes/player.js:95-96 | an id is listed exactly when a stored user with that id is online |
| PlayerRoutes.BuildQuery | routes/player.js:86-110 | the built filter has: an equality per truthy filter; a rating bound per truthy bound; the owner (a valid owner id wins over the online restriction); availability only for `status=available`; and the search text |
| PlayerRoutes.Run | routes/player.js:112 | every player `find(query)` returns is stored and matches the filter |
| PlayerRoutes.Selected | routes/player.js:86-112 | the intended selection, stated on the query parameters: exactly the stored players they describe |
| PlayerRoutes.BuiltQueryRunsSelected | routes/player.js:86-112 | running the built filter returns exactly the intended selection, in natural order |
| PlayerRoutes.OwnerOverridesOnline | routes/player.js:94-102 | with `status=online` and a valid owner id, that owner's players are selected whether or not the owner is online |
| PlayerRoutes.ListPlayers | routes/player.js:84-118 | 500 for a rating bound that does not parse as a number or a search text that is not a valid pattern; otherwise 200 with the intended selection and owner cards |
| PlayerRoutes.GetPlayer | routes/player.js:123-146 | 400 for an invalid id; 404 for an unknown player or one whose owner is not stored; for a stored player with a stored owner, 200 with that player and its owner card; every error is 400 or 404 |
| PlayerRoutes.GetAfterCreate | routes/player.js:123-138 | a created player whose owner exists can be fetched back |
| PlayerRoutes.BuildUpdate | routes/player.js:174-192 | `updateData` holds exactly the defined fields; the picture URLs go in only when non-empty; it is empty exactly when the client gave nothing usable |
| PlayerRoutes.ApplyUpdate | routes/player.js:194-198 | `$set` never changes owner, join date, games, win rate or modes, and an empty update changes nothing |
| PlayerRoutes.ApplyUpdateIdempotent | routes/player.js:194-198 | sending the same edit twice gives the same player as once |
| PlayerRoutes.Edited | routes/player.js:174-187 | the intended edited player, stated on the client's data: owner, join date, games, win rate and modes never change, and no data changes nothing |
| PlayerRoutes.BuiltUpdateGivesEdited | routes/player.js:174-198 | the `$set` of the built `updateData` yields exactly the intended edited player |
| PlayerRoutes.UpdatePlayer | routes/player.js:151-208 | 400 for an invalid id; 404 for an unknown player; 401 unless the caller is the owner or an admin; 400 without data; 400 with nothing to set; 500 for an invalid result. Otherwise the player is replaced and shown. On error nothing is written |
| PlayerRoutes.DeletePlayer | routes/player.js:212-239 | 400 for an invalid id; 404 for an unknown player; 401 for anyone but the owner, admins included. Otherwise the player is removed and the owner (if stored) gets `Disowned` |
| PlayerRoutes.DeleteUndoesCreate | routes/player.js:225 | deleting a player right after creating it restores the players collection |
| Server.AllowedOrigins | server.js:28-33 | the two local origins first; then `FRONTEND_URL`, then `RENDER_EXTERNAL_URL`, each only when set and non-empty, and nothing else; no empty entry |
| Server.OriginCheck | server.js:44-58 | requests without an origin and the two local front ends always pass; with no deployment URLs set, nothing else passes |
| Server.LiveMessage | server.js:131-143 | the broadcast event carries the message id, conversation, sender card, content and timestamp |
| Server.Presence | server.js:152-179 | going online sets the flag and clears `lastSeen`; going offline clears the flag and stamps `lastSeen`; nothing else changes |
| Server.OnlineClearsLastSeen | server.js:152-179 | going online after going offline leaves the user as going online alone would |
| Server.StorePresence | server.js:158-173 | a stored user gets the new presence, and an unknown user leaves the database unchanged |
| Server.StoreMessage | server.js:99-128 | the message is stored and recorded exactly when the ids are valid, the conversation exists, the sender takes part, and the message saves; otherwise nothing changes |
| Server.Io.Connect | server.js:85-86 | a connecting socket joins the server in no room |
| Server.Io.Disconnect | server.js:181-183 | the socket leaves every room, and no user's presence changes |
| Server.Io.JoinRoom | server.js:89-96 | an invalid id leaves the rooms unchanged; a valid one adds the socket to that room, with no participant check |
| Server.Io.SendMessage | server.js:99-149 | when accepted, the message is stored and recorded; when the sender's user is also stored, one emission with the live message goes to exactly the room's sockets. Otherwise nothing is stored or emitted |
| Server.Io.SetPresence | server.js:152-179 | an invalid id changes nothing. A valid one updates the stored user's presence and tells every connected socket |
| Server.JoinedSocketHearsRoom | server.js:89-133 | a socket that joined a room is among the receivers of the next broadcast to it, participant or not |
| CorsConfig.DeploymentOrigins | config/cors.js:10-15 | at most four non-empty origins, exactly the set variables, with `https://` before `VERCEL_URL` |
| CorsConfig.GetAllowedOrigins | config/cors.js:2-28 | the four local origins first, in order, then the deployment origins; outside production the any-port pattern comes last |
| CorsConfig.MatchesLocalhostPortIff | config/cors.js:26 | the pattern matches exactly `http://localhost:` followed by one or more digits |
| CorsConfig.ProductionIsExact | config/cors.js:18-20 | in production no pattern is listed, and exactly the local and deployment origins are allowed |
| CorsConfig.DevelopmentAllowsAnyLocalhostPort | config/cors.js:23-27 | outside production every port of `http://localhost` is allowed |
| CorsConfig.DevelopmentAllows | config/cors.js:23-27 | outside production exactly the listed origins and the `http://localhost` ports are allowed |
| CorsConfig.SecureLocalhostIsListed | config/cors.js:3-8 | `https://localhost:5000` is allowed in every configuration, because it is listed and not because of the pattern |

## Left out

- HTTP and Socket.IO transport: status codes and bodies are values, and emissions are entries in an outbox. Express routing, `res.json`, `listen` and static file serving are not modelled.
- MongoDB connection, process-level error handlers and logging (`console.*`): no effect on the modelled state.
- The 500 answers are values with the message "Server Error" (or "Server error" in the auth routes). Whether a route sends JSON or plain text is not distinguished.
- `populate` on lists and messages: the answers carry the stored documents. Only the player routes' owner card, the socket's sender card and the users' public view are modelled, because they decide an answer.
- Concurrency: handlers run one at a time. Interleaved requests, and the gap between the route's checks and its writes, are not modelled.
- bcrypt, JWT (sign, verify, expiry), `ObjectId.isValid`, `Number.parseInt` and `$regex` are parameters. A failing `jwt.sign` callback is not modelled.
- `Number()` on ratings, NaN and fractional numbers: ratings and attributes are integers, and the client sends numbers.
- Request bodies that are not JSON objects (null, arrays, wrong types) are not modelled. Each body or query field is a typed option (a missing field is `None`, as the message route's `conversationId` is); a field holding a value of another JSON type has no counterpart.
- String lengths: the `minlength`/`maxlength` validators (models/user.js:13-14, models/player.js:17-18, models/message.js:22-23) and the register route's password-length check (routes/auth.js:20, `AuthRoutes.Register`) count UTF-16 code units, while the model's `|s|` counts characters, so text outside the Basic Multilingual Plane is measured shorter here than by the server.
- Unicode: `trim` uses a fixed set of common whitespace characters, and `lowercase` only lowers ASCII letters.
- `scripts/createAdmin.js` and `scripts/setup-dev.js` are not part of this model: they are one-shot setup scripts.
- The admin user delete (`routes/admin.js:62-80`) is not modelled. It filters players on a field the schema does not have, and `user.remove()` depends on the Mongoose version.
- Mongo's order among equal sort keys is not promised. `SortBy` is a stable insertion sort, and the contracts state only order and permutation.
- Update validators: `findByIdAndUpdate` with `runValidators` is modelled as validating the whole updated document.
- AdminRoutes.BanProfile: a missing `reason` is stored as "" (the field's default) rather than as an unset field.
- UserRoutes.PutMe: modelled as the checks followed by one write. The duplicate-key 400 (code 11000) is proved unreachable (`ChecksLeaveAccountFree`) instead of being a modelled branch.
- Server.Io.SendMessage: the sender card is read from the users collection, which `sendMessage` does not change; a sender whose document is missing gets no emission.
- `req.body.participantId` missing: the model takes a participant id, so a request without one is not modelled.
- `config/cors.js` is modelled but connected to nothing, because the server builds its own list.
