# DevMatch core, modelled in Dafny

DevMatch is a Next.js application where developers sign up, keep a
profile, publish projects, befriend each other and chat. This project models
the server-side core and a few client-side reducers and forms:

- the security middleware: a fixed-window per-IP rate limiter, the
  recursive key sanitiser for JSON bodies, and the wrapper that chains them
  in front of a route handler;
- the page-access rule of the NextAuth middleware;
- the document models, with their validation rules:
  - users, with their OTP and reset-token methods;
  - conversations, with their partial unique index;
  - messages, friend requests and projects;
- the API routes for:
  - e-mail verification, password reset and the clean-up of unverified
    accounts;
  - NextAuth's `authorize`, `signIn`, `jwt`, `session` and `redirect`
    callbacks;
  - conversations, messages, read receipts and friend requests;
  - creating and listing projects;
  - updating a profile and deleting its picture;
- the socket.io gateway and the socket helper library;
- the client-side chat hook's list updaters, the auth slice and its sync
  hook;
- the mailer;
- the schemas and outcome handling of the register, sign-in and
  forgot-password pages.

The document store is one object, `Store.Database`. It holds a finite map
per collection, and its invariant keeps e-mails unique, keeps the
conversation index and keeps one friend request per ordered pair. Routes
are methods over this object: they state the response and the whole new
store, and they preserve the invariant. Everything the code gets from
outside is a parameter:

- the clock;
- fresh document ids;
- bcrypt, SHA-256 and the random draws;
- e-mail and URL format checks, and `JSON.parse` on form fields;
- upload, delete and mail outcomes.

Pure code (schemas, predicates, list updaters, reducers) is modelled as
functions, with lemmas about them.

## Model

| member | source | states |
|---|---|---|
| RateLimit.CeilSeconds | middlewares/rateLimit.ts:32 | the result is the least whole number of seconds covering the milliseconds: `1000*(r-1) < ms <= 1000*r` |
| RateLimit.CeilSecondsMonotonic | middlewares/rateLimit.ts:32 | rounding up to seconds is monotonic |
| RateLimit.Step | middlewares/rateLimit.ts:14-34 | one limiter call: a missing or expired record (strictly past `expiresAt`) starts a window of count 1 and allows; otherwise the call is allowed iff the count is below the maximum and then increments it; a denial leaves the table alone and reports the ceiling of the remaining seconds; no other IP's record changes |
| RateLimit.StepKeepsBounded | middlewares/rateLimit.ts:18-30 | every record keeps a count between 1 and the maximum |
| RateLimit.RetryAfterInRange | middlewares/rateLimit.ts:32-33 | with time not running backwards, a denied caller is told to wait between 0 and `ceil(windowMs/1000)` seconds |
| RateLimit.StepKeepsHorizon | middlewares/rateLimit.ts:20-23 | no window ends more than `windowMs` after the latest call |
| RateLimit.AtMostMaxPerWindow | middlewares/rateLimit.ts:18-33 | inside one window at most `maxRequests` calls are allowed in total, and the window's end does not move |
| RateLimit.Swept | middlewares/rateLimit.ts:39-43 | the sweep keeps exactly the records whose window has not ended before `now`, unchanged |
| RateLimit.ClientTable.constructor | middlewares/rateLimit.ts:11 | the process-wide client table starts empty |
| RateLimit.ClientTable.Sweep | middlewares/rateLimit.ts:37-44 | the loop over the table leaves exactly `Swept(old table, now)` |
| RateLimit.Limiter.constructor | middlewares/rateLimit.ts:13 | a limiter shares the one table and keeps its window and maximum |
| RateLimit.Limiter.Call | middlewares/rateLimit.ts:14-34 | the verdict and the new table are those of `Step` |
| Sanitize.BannedKeysRejected | middlewares/sanitize.ts:11-20 | `__proto__`, `constructor` and `prototype` are never valid keys |
| Sanitize.OperatorKeysRejected | middlewares/sanitize.ts:12-20 | a key containing `$where` or `$regex` in any letter case is rejected |
| Sanitize.Sanitized | middlewares/sanitize.ts:22-46 | scalars pass unchanged, arrays keep their length, objects keep at most their members (the surviving values are stated by `SanitizedObject`) |
| Sanitize.SanitizedItems | middlewares/sanitize.ts:23-25 | every array item is sanitised in place |
| Sanitize.SanitizedMembers | middlewares/sanitize.ts:33-43 | an object never gains members |
| Sanitize.WithSanitizedValues | middlewares/sanitize.ts:37-41 | each entry keeps its key, and its value is the recursively sanitised original |
| Sanitize.ValidMembersSnoc | middlewares/sanitize.ts:33-36 | filtering entries by key distributes over appending one entry |
| Sanitize.SanitizedMembersFilterThenMap | middlewares/sanitize.ts:33-43 | an object's sanitised entries are exactly its entries with valid keys, in order, each value recursively sanitised: only rejected keys are dropped and no surviving value is replaced |
| Sanitize.SanitizedObject | middlewares/sanitize.ts:22-46 | a sanitised object is the object of its valid entries with their values sanitised; primitives among them are copied unchanged |
| Sanitize.Keys | middlewares/sanitize.ts:33 | the keys of an object's entries, in order |
| Sanitize.ValidKeysSnoc | middlewares/sanitize.ts:33-36 | filtering keys distributes over appending one key |
| Sanitize.SurvivingKeysInOrder | middlewares/sanitize.ts:33-43 | the surviving keys are exactly the valid ones, in their original order |
| Sanitize.SanitizedIsClean | middlewares/sanitize.ts:22-46 | no invalid key survives at any depth |
| Sanitize.SanitizedMembersAreClean | middlewares/sanitize.ts:33-43 | no invalid key survives in an object's members at any depth |
| Sanitize.CleanIsFixpoint | middlewares/sanitize.ts:22-46 | a value without invalid keys is left as it is |
| Sanitize.CleanMembersFixpoint | middlewares/sanitize.ts:33-43 | members without invalid keys are left as they are |
| Sanitize.Idempotent | middlewares/sanitize.ts:22-46 | sanitising twice is sanitising once |
| Sanitize.DeepSanitize | middlewares/sanitize.ts:22-46 | the recursive sanitiser with its key loop returns `Sanitized(input)` |
| SecureHandler.LimiterKey | middlewares/secureHandler.ts:11 | the limiter key is the `x-forwarded-for` header, or "unknown" when it is absent or empty |
| SecureHandler.HeaderlessClientsShareBucket | middlewares/secureHandler.ts:11 | all clients without the header share one bucket |
| SecureHandler.Prepared | middlewares/secureHandler.ts:21-36 | a non-GET JSON request with a parsable body is rebuilt with the sanitised body; any other request, and an unparsable body, pass unchanged |
| SecureHandler.SanitisedBodyIsClean | middlewares/secureHandler.ts:22-31 | the body the handler receives holds no invalid key |
| SecureHandler.Gate | middlewares/secureHandler.ts:14-42 | a denied call answers 429 with the retry time and never reaches the handler; otherwise the handler gets the prepared request, and its exception becomes 500 "Internal error" |
| SecureHandler.Wrapper.constructor | middlewares/secureHandler.ts:6 | the wrapper's limiter has a 60 000 ms window and 10 requests |
| SecureHandler.Wrapper.Handle | middlewares/secureHandler.ts:8-43 | one wrapped call is a limiter `Step` on the client's key, then `Gate` |
| AuthMiddleware.Authorized | middleware.ts:6-21 | a request passes iff its path is public or it carries a token |
| AuthMiddleware.AuthApiAlwaysOpen | middleware.ts:10 | every path under /api/auth passes without a token |
| AuthMiddleware.SignInSubpathNeedsToken | middleware.ts:12 | "/auth/signin" is public only by exact equality: "/auth/signin/x" needs a token |
| AuthMiddleware.ResetLinksOpen | middleware.ts:16 | reset-password links pass without a token |
| UserModel.EmailFormatNeedsAtAndDot | models/User.ts:46 | an address matching `\S+@\S+\.\S+` contains `@` and `.` and has at least five characters |
| UserModel.EmailFormatExample | models/User.ts:46 | "a@b.c" matches the pattern and "a@.c" does not |
| UserModel.FindByEmail | models/User.ts:41-46 | the document `findOne({ email })` finds has that e-mail, and with unique e-mails it is the only one |
| UserModel.FreshEmailKeepsUnique | models/User.ts:45 | inserting a user whose e-mail is not yet taken keeps e-mails unique |
| UserModel.SameEmailKeepsUnique | models/User.ts:45 | saving a user back with an unchanged e-mail keeps e-mails unique |
| UserModel.NewUser | models/User.ts:38-85 | a new document has the given fields, `isVerified` as given, empty lists and no OTP or reset token |
| UserModel.NoPasswordNeverMatches | models/User.ts:95-100 | a user without a stored password never matches any candidate |
| UserModel.OtpCode | models/User.ts:104 | `floor(100000 + r*900000)` for `0 <= r < 1` lies in 100000..999999 |
| UserModel.DecimalString | models/User.ts:104 | `toString()` of a natural number is a non-empty string of digits |
| UserModel.DecimalRoundTrip | models/User.ts:104 | reading the decimal string back gives the number |
| UserModel.DecimalLength | models/User.ts:104 | a number in `10^(k-1)..10^k - 1` has `k` digits |
| UserModel.OtpIsSixDigits | models/User.ts:104 | every OTP is exactly six digits |
| UserModel.VerifyOtpResult | models/User.ts:110-118 | `verifyOTP` succeeds iff the code matches and `verificationExpiry` lies after now; success marks the user verified and clears both fields, failure changes nothing |
| UserModel.VerifyOtpSingleUse | models/User.ts:110-118 | after a successful verification no code verifies again |
| UserModel.AfterOtpIssued | models/User.ts:103-108 | as written: the code is stored but the expiry goes to `verificationOTPExpiry`, so `verificationExpiry` is unchanged |
| UserModel.UndeclaredPaths | models/User.ts:38-84 | the schema declares neither `verificationOTPExpiry` nor `friends` nor `profileImagePublicId`, while it declares the profile fields the routes set |
| UserModel.IssuedOtpNeverVerifies | models/User.ts:103-118 | for a user without `verificationExpiry`, the code just issued never verifies, at any time |
| UserModel.AfterOtpIssuedCorrected | models/User.ts:103-108 | corrected: the code and an expiry ten minutes ahead go to the fields `verifyOTP` reads |
| UserModel.CorrectedOtpVerifies | models/User.ts:103-118 | with the correction, a code verifies iff it is the issued one and the ten minutes have not passed |
| UserModel.WithResetToken | models/User.ts:121-131 | the SHA-256 of the raw token is stored with an expiry one hour ahead |
| UserModel.ResetTokenRoundTrip | models/User.ts:121-137 | the raw token just issued validates iff the hour has not passed; a token with a different hash never validates |
| UserModel.WithoutResetToken | models/User.ts:140-143 | both reset fields are cleared, so no token validates, and nothing else changes |
| UserModel.Stored | models/User.ts:87-92 | the save hook hashes the password iff it was modified and is non-empty; otherwise the document is stored as it is |
| UserModel.UserDoc.Load | models/User.ts:145 | a loaded document holds the stored record, and nothing is marked modified |
| UserModel.UserDoc.Create | models/User.ts:38-85 | a new document holds the record, with the password marked modified when one is given |
| UserModel.UserDoc.ComparePassword | models/User.ts:95-100 | `comparePassword` is false without a stored password, otherwise the comparison |
| UserModel.UserDoc.GenerateVerificationOtp | models/User.ts:103-108 | returns the six-digit code; the record becomes `AfterOtpIssued`, and the expiry lands in the undeclared `verificationOTPExpiry` |
| UserModel.UserDoc.VerifyOtp | models/User.ts:110-118 | the result and the new record are those of `VerifyOtpResult` |
| UserModel.UserDoc.GenerateResetToken | models/User.ts:121-131 | returns the raw token; the record becomes `WithResetToken` |
| UserModel.UserDoc.ValidateResetToken | models/User.ts:133-137 | the answer is `ResetTokenValid` on the current record |
| UserModel.UserDoc.ClearResetToken | models/User.ts:140-143 | the record becomes `WithoutResetToken` |
| UserModel.UserDoc.SetPassword | models/User.ts:48-88 | the password is replaced and marked modified |
| UserModel.UserDoc.Save | models/User.ts:87-92 | the stored record is `Stored(record, modified, hash)`, and the modified mark is cleared |
| ChatModel.NewMessage | models/Message.ts:13-45 | a missing content defaults to "", and both timestamps are the creation time |
| ChatModel.NewConversation | models/Conversation.ts:13-28 | a new conversation has no last message, and both timestamps are the creation time |
| ChatModel.AdmittedWriteKeepsIndex | models/Conversation.ts:31-38 | a write the partial unique index admits keeps the index intact |
| ChatModel.GroupsNeverClash | models/Conversation.ts:36 | group conversations are outside the partial index and never clash |
| ChatModel.DirectDuplicatesAllowed | models/Conversation.ts:30-38 | since `lastMessageAt` is part of the key, two direct conversations between the same people at different times satisfy the index |
| ChatModel.MarkedRead | app/api/chat/messages/read/route.ts:31-34 | every message of the conversation that the user has not read gets the user appended to `readBy`; every other message is unchanged |
| ChatModel.CountZero | app/api/chat/messages/read/route.ts:32 | an id absent from a list occurs zero times |
| ChatModel.MarkedReadOnce | app/api/chat/messages/read/route.ts:31-34 | afterwards the user has read every message of the conversation and appears once in a list they were not in |
| ChatModel.MarkedReadIdempotent | app/api/chat/messages/read/route.ts:31-34 | marking twice is marking once |
| ChatRoutes.ConversationsOf | app/api/chat/conversations/route.ts:15-17 | exactly the conversations the user takes part in |
| ChatRoutes.UpdatedAtKey | app/api/chat/conversations/route.ts:18 | the sort key of each conversation is its `updatedAt` |
| ChatRoutes.ListConversations | app/api/chat/conversations/route.ts:9-22 | 401 without a session; otherwise the caller's conversations, each once, newest `updatedAt` first |
| ChatRoutes.NewParticipants | app/api/chat/conversations/route.ts:42 | the caller comes first, followed by the given ids, each once and with nothing else |
| ChatRoutes.CreatedConversation | app/api/chat/conversations/route.ts:44-49 | the conversation is a group iff requested and more than two distinct people take part; an empty name becomes absent |
| ChatRoutes.TwoPeopleNeverGroup | app/api/chat/conversations/route.ts:42-45 | a conversation with one other person is never a group, even when the caller lists themself |
| ChatRoutes.DedupPair | app/api/chat/conversations/route.ts:42 | de-duplicating two ids keeps both unless they are equal |
| ChatRoutes.DedupRepeat | app/api/chat/conversations/route.ts:42 | a caller listed again among the ids is dropped |
| ChatRoutes.CreateConversation | app/api/chat/conversations/route.ts:24-52 | 401, then 400 "participants_required"; otherwise a new conversation is inserted (201) when it is valid and the unique index admits it, and anything else throws with the store unchanged |
| ChatRoutes.RepeatCreateAdmitted | app/api/chat/conversations/route.ts:44-49 | creating the same direct conversation again is admitted whenever no stored one has the same time |
| ChatRoutes.ConversationById | app/api/chat/conversations/getConversationById/route.ts:10-74 | 401, 400, 404 and 500 as written; the conversation is returned iff it exists and the caller is a participant whose user still exists |
| ChatRoutes.ConversationOnlyToParticipants | app/api/chat/conversations/getConversationById/route.ts:56-67 | only a participant ever receives a conversation |
| ChatRoutes.MessageById | app/api/chat/messages/get-message-by-id/route.ts:11-67 | 401, 400, 404 and 500 as written; the message is returned iff the caller takes part in its conversation |
| ChatRoutes.MessageOnlyToParticipants | app/api/chat/messages/get-message-by-id/route.ts:48-60 | only a participant of the message's conversation ever receives it |
| ChatRoutes.MessagesOf | app/api/chat/messages/route.ts:23 | exactly the messages of the conversation |
| ChatRoutes.Ids | app/api/chat/messages/route.ts:32 | the ids of the returned documents, in order |
| ChatRoutes.ListMessages | app/api/chat/messages/route.ts:12-33 | the conversation's messages, each once, oldest first, as read before the update; afterwards the caller has read them all and nothing else changes |
| ChatRoutes.PostMessage | app/api/chat/messages/route.ts:35-64 | 401 and 400 "bad_request" as written; the message is stored read by its sender alone, then an existing conversation gets `lastMessageAt` and `lastMessage`; an index clash throws after the message is stored |
| ChatRoutes.PostedMessageReadOnlyBySender | app/api/chat/messages/route.ts:55 | a posted message is read by its sender and by nobody else |
| ChatRoutes.MarkRead | app/api/chat/messages/read/route.ts:9-43 | 401, then 400 "conversationId_required", 500 for an id that cannot be cast, and otherwise 204 with `MarkedRead` applied |
| FriendModel.NewRequest | models/FriendRequest.ts:9-26 | a new request is pending, and both timestamps are the creation time |
| FriendModel.OnePerPairImpliesPairUnique | models/FriendRequest.ts:27 | at most one request per unordered pair implies the unique `(sender, receiver)` index |
| FriendModel.AddUnlinkedKeepsOnePerPair | models/FriendRequest.ts:27 | adding a request between two unlinked, distinct people keeps one request per pair |
| Friends.SendRequest | app/api/friends/request/route.ts:8-41 | 400 without a session or receiver, or for oneself; 400 "Friend request already exists" when a request links the two in either direction; otherwise a pending request is inserted; one request per pair is preserved |
| Friends.AddToSet | app/api/friends/accept/route.ts:33-34 | `$addToSet`: the id is present afterwards with nothing else added, and a duplicate-free list stays duplicate-free |
| Friends.Befriend | app/api/friends/accept/route.ts:33-34 | corrected: only that user's `friends` list changes, by `AddToSet` |
| Friends.BefriendAsWritten | app/api/friends/accept/route.ts:33-34 | as written: `friends` is not a declared path, so the update is cast away and the users are unchanged |
| Friends.AcceptAsWrittenAddsNoFriend | app/api/friends/accept/route.ts:33-34 | as written: after accepting, a sender who did not list the receiver still does not |
| Friends.Accept | app/api/friends/accept/route.ts:9-37 | as written: 400 without a session or sender; 404 when no pending request from that sender exists; otherwise the request becomes accepted, and no user record changes |
| Friends.AcceptCorrected | app/api/friends/accept/route.ts:9-37 | corrected: the same answers and request update, and each party is added to the other's friends by `Befriend` |
| Friends.AcceptMakesFriendsBothWays | app/api/friends/accept/route.ts:33-34 | corrected: after accepting, each party lists the other as a friend |
| Friends.AcceptKeepsFriendsDistinct | app/api/friends/accept/route.ts:33-34 | corrected: friend lists stay free of duplicates |
| Friends.SecondAcceptNotFound | app/api/friends/accept/route.ts:20-28 | once accepted, the request is no longer found as pending |
| Friends.Reject | app/api/friends/reject/route.ts:8-40 | 400 without a session or sender; 404 when nothing is pending from that sender; otherwise that one pending request is deleted |
| Friends.RejectReopensPair | app/api/friends/reject/route.ts:23-27 | after rejecting, the two people are unlinked and may send a new request |
| Friends.AcceptedWith | app/api/friends/list/route.ts:17-23 | exactly the accepted requests the user sent or received |
| Friends.OtherParty | app/api/friends/list/route.ts:27-29 | the receiver when the user sent the request, otherwise the sender |
| Friends.ListFriends | app/api/friends/list/route.ts:8-32 | 401 without a session; the other party of each of the caller's accepted requests; with one request per pair, never the caller |
| Friends.PendingFor | app/api/friends/pending/route.ts:18-21 | exactly the pending requests the user received |
| Common.SortKey | app/api/friends/list-reqs/route.ts:22 | each listed document's sort key is its `createdAt`, and only the listed documents have one; the message listing uses the same key |
| Friends.ListIncoming | app/api/friends/list-reqs/route.ts:8-25 | 401 without a session; otherwise the incoming pending requests, each once, newest first |
| Friends.ListPending | app/api/friends/pending/route.ts:8-24 | 401 without a session; otherwise the incoming pending requests, each once |
| SocketGateway.RoomKindsDisjoint | pages/api/socket/io.ts:30-42 | a user room and a conversation room never share a name |
| Common.RoomMembers | pages/api/socket/io.ts:64-89 | exactly the sockets that joined the room; the socket helper library's rooms are read the same way |
| SocketGateway.Gateway.constructor | pages/api/socket/io.ts:19-37 | a new server has no sockets, no rooms and has sent nothing |
| SocketGateway.Gateway.Connect | pages/api/socket/io.ts:22-35 | a token that fails to decode refuses with "auth_error"; no token or no id refuses with "unauthorized"; otherwise the socket is bound to the user and joins only the user's room |
| SocketGateway.Gateway.JoinConversation | pages/api/socket/io.ts:40-43 | an empty id is ignored; otherwise the socket joins the conversation's room and nothing else changes |
| SocketGateway.Gateway.MessageSend | pages/api/socket/io.ts:45-76 | the message is stored read by the sender, the conversation points at it and `message:new` goes to the whole room; any failure sends an error to the sending socket alone, and a message stored before the failure stays |
| SocketGateway.Gateway.TypingEvent | pages/api/socket/io.ts:78-80 | the room's other sockets hear who is typing; the typing socket does not |
| SocketGateway.Gateway.ReadEvent | pages/api/socket/io.ts:82-91 | the user is added to `readBy` of the conversation's unread messages and the room hears it; a failure is swallowed with nothing changed |
| SocketGateway.Host.constructor | pages/api/socket/io.ts:98 | the HTTP server starts with no socket.io server |
| SocketGateway.Host.Handle | pages/api/socket/io.ts:95-108 | the first request creates a fresh server; later requests keep it |
| SocketLib.Singleton.constructor | lib/socket.ts:14 | the instance starts empty |
| SocketLib.Singleton.GetOrCreateIO | lib/socket.ts:19-38 | the first call creates the instance and every later call returns that same one, which `getIO` then reports |
| SocketLib.Handlers.constructor | lib/socket.ts:42-43 | no socket and nothing sent |
| SocketLib.Handlers.Connect | lib/socket.ts:43-44 | a connecting socket starts in no room |
| SocketLib.Handlers.JoinConversation | lib/socket.ts:47-55 | an empty id is ignored; otherwise the socket joins the room named by the bare conversation id |
| SocketLib.Handlers.SendMessage | lib/socket.ts:58-73 | a message without conversation, sender or content is dropped; otherwise it is stored as sent and `newMessage` goes to the room; a failed insert is swallowed |
| SocketLib.Stored | lib/socket.ts:66 | the stored message takes conversation, sender, content, attachments and `readBy` from the client as given |
| SocketLib.ClientChoosesSender | lib/socket.ts:60-66 | the sender is whatever the client claims, and `readBy` is empty unless the client supplies it |
| ChatClient.OnNewMessage | hooks/useChat.ts:31-33 | a message whose id is already listed is ignored; otherwise it is appended |
| ChatClient.NewMessageIdempotent | hooks/useChat.ts:32 | receiving the same message twice is receiving it once, and ids stay unique |
| ChatClient.OnMessageSeen | hooks/useChat.ts:35-37 | the matching message gets the user appended to `seenBy`; every other entry is unchanged |
| ChatClient.SeenNotDeduplicated | hooks/useChat.ts:36 | a repeated seen event lists the user again: the updater does not de-duplicate |
| ChatClient.Optimistic | hooks/useChat.ts:64-72 | the optimistic entry has the temporary id, the sender "me" and an empty `seenBy` |
| ChatClient.Without | hooks/useChat.ts:78 | exactly the entries whose id differs |
| ChatClient.WithoutAbsent | hooks/useChat.ts:78 | filtering out an id that is not listed changes nothing |
| ChatClient.Replaced | hooks/useChat.ts:81 | each entry with the temporary id becomes the server's message, and nothing else changes |
| ChatClient.FailedSendLeavesNoTrace | hooks/useChat.ts:73-80 | a send that fails restores the list as it was |
| ChatClient.AckedSendAppendsServerMessage | hooks/useChat.ts:73-82 | a send that succeeds leaves the server's message at the end of the old list |
| ChatClient.ChatHook.constructor | hooks/useChat.ts:18-20 | no socket, not connected, no messages |
| ChatClient.ChatHook.Open | hooks/useChat.ts:22-26 | a socket is opened only once the session is ready |
| ChatClient.ChatHook.Close | hooks/useChat.ts:43-46 | the clean-up disconnects, which the hook's `disconnect` listener records as not connected, and forgets the socket; the messages stay |
| ChatClient.ChatHook.SetConnected | hooks/useChat.ts:28-29 | connect and disconnect set the flag |
| ChatClient.ChatHook.ReceiveNewMessage | hooks/useChat.ts:31-33 | the list becomes `OnNewMessage` of the old list |
| ChatClient.ChatHook.ReceiveMessageSeen | hooks/useChat.ts:35-37 | the list becomes `OnMessageSeen` of the old list |
| ChatClient.ChatHook.JoinConversation | hooks/useChat.ts:50-55 | rejects with "Not connected" without a socket; otherwise emits the join |
| ChatClient.ChatHook.SendMessage | hooks/useChat.ts:61-76 | throws "Socket not connected" without a socket; otherwise appends the optimistic entry and emits |
| ChatClient.ChatHook.Acknowledge | hooks/useChat.ts:76-83 | an error removes the temporary entry; a message replaces it |
| UserModel.UserDoc.GenerateVerificationOtpCorrected | models/User.ts:103-108 | corrected: returns the six-digit code; the record becomes `AfterOtpIssuedCorrected` |
| Account.SendVerification | app/api/auth/send-verification/route.ts:6-42 | 400 "User already exists" for a taken e-mail; otherwise the unverified user is stored, as written, with its six-digit code and no `verificationExpiry`, before the mail goes out; a failed send answers 500 but the user stays; an invalid document answers 500 and stores nothing |
| Account.SendVerificationCorrected | app/api/auth/send-verification/route.ts:6-42 | corrected: the same answers, with the stored user's `verificationExpiry` ten minutes ahead so the mailed code can verify |
| Account.RegisteredUserCannotVerify | app/api/auth/send-verification/route.ts:21-30 | as written, the account `SendVerification` stores can never be verified, whatever code is sent and whenever |
| Account.RegisteredUserVerifiesWhenCorrected | app/api/auth/send-verification/route.ts:21-30 | with the corrected issue, the account `SendVerificationCorrected` stores verifies iff the mailed code is sent within ten minutes |
| Account.CheckOtp | app/api/auth/verify-email/route.ts:10-26 | the code check succeeds exactly when `verifyOTP` accepts it, and the saved record is the verified one `verifyOTP` leaves |
| Account.VerifyEmail | app/api/auth/verify-email/route.ts:6-35 | 404 for an unknown e-mail; 400 with nothing saved when `verifyOTP` refuses; otherwise the user is saved verified |
| Account.ResetUrl | app/api/auth/reset-password/route.ts:24-30 | the link is the environment's base, "/auth/reset-password?token=" and the URI-encoded token |
| Account.ResetUrlHasToken | app/api/auth/reset-password/route.ts:33-35 | the link always contains "token=", so the structure check never throws |
| Account.HexTokenUnencoded | app/api/auth/reset-password/route.ts:30 | a hex token passes through the encoding unchanged |
| Account.IssueResetToken | app/api/auth/reset-password/route.ts:20-21 | the raw token comes back and the saved record holds its hash and a one-hour expiry |
| Account.RequestReset | app/api/auth/reset-password/route.ts:7-62 | 404 "No account found with that email address." for an unknown e-mail; otherwise the token's hash and expiry are saved before the link is mailed, and the answer is 200 whatever the mail's outcome |
| Account.ResetDocument | app/api/auth/reset-password/route.ts:94-96 | the saved record is `Reset`: the hashed new password and no token |
| Account.ConsumeReset | app/api/auth/reset-password/route.ts:65-110 | 400 when the token or password is missing; 400 unless some user's stored hash matches and is unexpired; otherwise that user gets the hashed new password and no token |
| Account.Reset | app/api/auth/reset-password/route.ts:94-96 | the new password is stored hashed, the token is cleared, and nothing else changes |
| Account.ResetTokenSingleUse | app/api/auth/reset-password/route.ts:94-96 | after a reset no token validates, so the link cannot be used again |
| Account.AfterCleanup | utils/cleanupUnverifiedUsers.ts:5-12 | exactly the users explicitly unverified and created more than 24 hours ago are removed; verified, flagless and recent users stay |
| Account.CleanupIdempotent | utils/cleanupUnverifiedUsers.ts:7-10 | a second clean-up at the same time removes nothing more, and e-mails stay unique |
| Account.Cleanup | utils/cleanupUnverifiedUsers.ts:5-12 | the users collection becomes `AfterCleanup`; nothing else changes |
| AuthCallbacks.Authorize | lib/auth.ts:17-34 | throws "Email and password are required" when either is missing and "Invalid credentials" for an unknown e-mail or an account without a password, and "Invalid password" for a password that does not compare; otherwise signs in exactly the stored user with that e-mail |
| AuthCallbacks.OAuthRefresh | lib/auth.ts:62-78 | an existing user signing in with a provider becomes verified and takes the provider's picture when one is given; nothing else changes, and nothing at all when there is no change to save |
| AuthCallbacks.OAuthRefreshSettles | lib/auth.ts:62-78 | a second sign-in with the same picture has nothing to save |
| AuthCallbacks.OAuthUser | lib/auth.ts:84-91 | a first provider sign-in creates a verified, password-less user with the provider's e-mail, its name or "Unknown", and its picture |
| AuthCallbacks.SignIn | lib/auth.ts:50-96 | credentials pass without touching the store; an existing provider user is refreshed, a new one created with a fresh id; no other collection changes |
| AuthCallbacks.Jwt | lib/auth.ts:97-102 | the token takes the signed-in user's id and otherwise keeps what it had |
| AuthCallbacks.SessionOf | lib/auth.ts:103-108 | the session's user takes the token's id when it has one; nothing else changes |
| AuthCallbacks.SessionCarriesUserId | lib/auth.ts:97-108 | after sign-in and any later refresh of the token, the session carries the user's id |
| AuthCallbacks.Redirect | lib/auth.ts:109-116 | the target always lies on the base URL: a URL on it is kept, any other becomes the base |
| AuthCallbacks.RedirectIdempotent | lib/auth.ts:109-116 | redirecting a second time changes nothing |
| Email.NextGt | lib/email.ts:37 | the first `>` at or after a position |
| Email.StripTags | lib/email.ts:37 | the tag-stripping replacement never lengthens the text and adds no character |
| Email.TagAtShift | lib/email.ts:37 | a tag start is found the same way behind one more leading character |
| Email.StripTagsLeavesNoTag | lib/email.ts:37 | the stripped text holds no further tag |
| Email.StripTagsKeepsTagFree | lib/email.ts:37 | text without tags passes unchanged |
| Email.StripTagsIdempotent | lib/email.ts:37 | stripping twice is stripping once |
| Email.StripTagsExample | lib/email.ts:37 | "<b>Hi</b>" becomes "Hi" |
| Email.PlainText | lib/email.ts:37 | the given text is used when it is non-empty; otherwise the tag-free stripped HTML |
| Email.From | lib/email.ts:34 | the sender line is the display name "DevMatch" and the configured address in angle brackets |
| Email.FromInjective | lib/email.ts:34 | different sender addresses give different sender lines |
| Email.VerificationHtml | lib/email.ts:48-56 | the verification mail's HTML contains the code |
| Email.ResetHtml | lib/email.ts:63-78 | the reset mail's HTML contains the link |
| Email.ResetText | lib/email.ts:85 | the reset mail's text is non-empty and contains the link |
| Email.Mailer.constructor | lib/email.ts:4 | no transporter yet and nothing delivered |
| Email.Mailer.GetTransporter | lib/email.ts:6-21 | the transporter is created once and reused afterwards |
| Email.Mailer.SendEmail | lib/email.ts:30-44 | a working transport delivers exactly one mail from the sender line with the plain-text fallback; a failing one delivers nothing and throws "Failed to send email" |
| Email.Mailer.SendVerificationEmail | lib/email.ts:46-59 | delivers the verification subject with the code's HTML and its stripped text, or passes the transport error on |
| Email.Mailer.SendResetPasswordEmail | lib/email.ts:61-92 | never throws; reports success exactly when the mail with the reset subject, link HTML and link text was delivered |
| AuthSlice.Reduce | redux/slices/authSlice.ts:42-56 | `setUser` holds the user, authenticated and not loading; `clearUser` holds none, unauthenticated and not loading; `setLoading` changes only the flag; each keeps "authenticated iff a user is held" |
| AuthSlice.RunKeepsConsistent | redux/slices/authSlice.ts:33-56 | every sequence of actions keeps "authenticated iff a user is held" |
| AuthSlice.LoadingKeepsUser | redux/slices/authSlice.ts:53-55 | loading changes never touch who is signed in |
| AuthSlice.AuthStore.constructor | redux/slices/authSlice.ts:33-37 | no user, not authenticated, loading |
| AuthSlice.AuthStore.SetUserAction | redux/slices/authSlice.ts:43-47 | the state becomes `Reduce` of the old state with `setUser` |
| AuthSlice.AuthStore.ClearUserAction | redux/slices/authSlice.ts:48-52 | the state becomes `Reduce` of the old state with `clearUser` |
| AuthSlice.AuthStore.SetLoadingAction | redux/slices/authSlice.ts:53-55 | the state becomes `Reduce` of the old state with `setLoading` |
| AuthSlice.AuthStore.Dispatch | redux/slices/authSlice.ts:42-56 | any action keeps the store consistent and moves it as `Reduce` says |
| AuthSync.ToClientUser | hooks/useAuthSync.ts:22-32 | the id is the session's id, else its e-mail, else "unknown"; name and e-mail default to "" and the picture is passed on |
| AuthSync.SyncActions | hooks/useAuthSync.ts:12-36 | loading dispatches only `setLoading(true)`; otherwise `setLoading(false)` then `setUser` exactly when authenticated with a user, else `clearUser` |
| AuthSync.SyncMirrorsSession | hooks/useAuthSync.ts:12-36 | after the effect the slice is loading exactly while the session is, and once resolved holds the session's user exactly when authenticated |
| ProjectModel.NewProject | models/Project.ts:25-69 | a new project has the given fields, no likes, the status given or "published" by default, and both timestamps at creation time |
| Projects.ListField | app/api/projects/create-project/route.ts:69-81 | an absent field stays absent; "" is kept and then refused; text that is not JSON becomes the empty list; a JSON string array is taken as is; any other JSON value is refused |
| Projects.StatusField | app/api/projects/create-project/route.ts:20 | the status is accepted exactly when absent, "draft" or "published" |
| Projects.BaseValidation | app/api/projects/create-project/route.ts:12-20 | the form passes exactly when the title has 3 to 100 characters, the description 10 to 2000, the lists and status parse, the URLs are URLs and no collaboration flag arrives as text; the parsed input keeps the form's values |
| Projects.ImageProblem | app/api/projects/create-project/route.ts:113-120 | text entries are skipped; a file of another type is refused with its type, one over 5 MB with the size message |
| Projects.FirstProblem | app/api/projects/create-project/route.ts:112-120 | no problem exactly when every entry passes; otherwise the problem of some entry |
| Projects.Files | app/api/projects/create-project/route.ts:113-127 | exactly the file entries, none added |
| Projects.UploadAll | app/api/projects/create-project/route.ts:122-127 | succeeds exactly when every upload does, with one result per file in order |
| Projects.ImageUploads | app/api/projects/create-project/route.ts:104-134 | more than 10 entries are refused; otherwise any type or size problem; on success every file was checked and at most 10 uploads result |
| Projects.VideoUpload | app/api/projects/create-project/route.ts:136-154 | no file means no video; a wrong type or a file over 50 MB is refused; a stored video is an accepted, uploaded file |
| Projects.MediaAsWritten | app/api/projects/create-project/route.ts:157-180 | as written: any image upload makes creation fail, and a video alone is stored without its URL |
| Projects.MediaAsWrittenLosesUploads | app/api/projects/create-project/route.ts:157-180 | as written, no upload ever reaches the stored project |
| Projects.StoredMedia | models/Project.ts:52-55 | corrected: media is stored exactly when something was uploaded, with each image's URL in order and the video's URL |
| Projects.StoredMediaKeepsUploads | models/Project.ts:52-55 | corrected: every uploaded image and the video are in the stored project |
| Projects.Prepare | app/api/projects/create-project/route.ts:83-177 | a 400 refusal for invalid fields, the first image or video problem, or a media URL that is not a URL; otherwise exactly the validated fields with the image and video uploads |
| Projects.Insert | app/api/projects/create-project/route.ts:179-184 | a document that fails validation answers 500 with nothing stored; otherwise the project is stored, and the owner gains its id (201) unless the owner's save fails (500, the project staying stored) |
| Projects.CreateProject | app/api/projects/create-project/route.ts:48-197 | as written: 401 without a session, 404 for an unknown user, 400 with `Prepare`'s refusal; with any image the insert fails on the cast and the answer is 500 with nothing stored; an accepted form without images whose documents validate answers 201, the project inserted with the media as written (no video URL) and its id appended to the owner's projects |
| Projects.CreateProjectCorrected | app/api/projects/create-project/route.ts:48-197 | corrected: the same refusals; every accepted form whose documents validate answers 201, the project inserted with `StoredMedia`, so every upload is kept, and its id appended to the owner's projects |
| Projects.OwnerOf | app/api/projects/get-all-projects/route.ts:45-51 | the owner's id, name, picture as avatar, bio and skills |
| Projects.OwnedCreatedAt | app/api/projects/get-all-projects/route.ts:32-37 | exactly the caller's projects, keyed by creation time |
| Projects.GetAllProjects | app/api/projects/get-all-projects/route.ts:9-63 | 401 without a session, 404 for an unknown user; otherwise every project the caller owns, each once, newest first, with its owner's projection |
| Profile.Split | app/api/profile/update-user-details/route.ts:59 | at least one piece, none holding a comma |
| Profile.JoinSplit | app/api/profile/update-user-details/route.ts:59 | splitting on commas loses nothing: joining the pieces gives the text back |
| Profile.TrimStart | app/api/profile/update-user-details/route.ts:59 | a suffix that does not start with white space |
| Profile.TrimEnd | app/api/profile/update-user-details/route.ts:59 | a prefix that does not end with white space |
| Profile.Trim | app/api/profile/update-user-details/route.ts:59 | no white space at either end, never longer |
| Profile.TrimIdempotent | app/api/profile/update-user-details/route.ts:59 | trimming twice is trimming once |
| Profile.Trimmed | app/api/profile/update-user-details/route.ts:59 | each piece trimmed, in order |
| Profile.SkillsField | app/api/profile/update-user-details/route.ts:17-61 | absent stays absent; "" is refused; a JSON string array, or else the trimmed comma-separated pieces, is accepted exactly when no skill is empty; any other JSON value is refused |
| Profile.ProfileValidation | app/api/profile/update-user-details/route.ts:11-63 | the form passes exactly when the bio has 10 to 300 characters, the location at most 50, the skills parse and no socials arrive as text; the data holds exactly the fields given |
| Profile.NonEmpty | app/api/profile/update-user-details/route.ts:127-135 | exactly the fields whose value is neither "" nor an empty list |
| Profile.StripEmpty | app/api/profile/update-user-details/route.ts:127-135 | the loop that deletes empty fields leaves `NonEmpty` of the data |
| Profile.Apply | app/api/profile/update-user-details/route.ts:138-142 | `$set` changes only the fields the update names; name, e-mail, password, projects, friends and verification never change |
| Profile.EmptyValuesKeepFields | app/api/profile/update-user-details/route.ts:127-142 | an empty location, bio or skills list leaves the stored value as it was |
| Profile.PictureStepOf | app/api/profile/update-user-details/route.ts:80-125 | more than one picture is refused; none, or a text entry, changes nothing; a file of another type or over 5 MB is refused; a failed upload answers 500 |
| Profile.WithPicture | app/api/profile/update-user-details/route.ts:121-122 | an uploaded picture adds its URL and public id to the update; otherwise the update is unchanged |
| Profile.NewPictureReplacesOld | app/api/profile/update-user-details/route.ts:121-142 | corrected: after an upload the stored picture and public id are the new ones |
| Profile.Strict | app/api/profile/update-user-details/route.ts:137-142 | the strict schema keeps exactly the update's declared paths, with their values |
| Profile.PublicIdRead | app/api/profile/update-user-details/route.ts:111-113 | as written: the undeclared public id reads as undefined whatever is stored |
| Profile.PublicIdNeverStored | app/api/profile/update-user-details/route.ts:121-142 | as written: after an upload the picture's URL is stored, but the stored public id stays what it was |
| Profile.UpdateProfile | app/api/profile/update-user-details/route.ts:29-183 | as written: 401, 404, 400 for invalid input, the picture's refusals; success (200) exactly when every check passes, with only the caller's record changed to `Apply` of the strict, non-empty update, the public id unchanged, and no old picture ever deleted |
| Profile.UpdateProfileCorrected | app/api/profile/update-user-details/route.ts:29-183 | corrected: the same answers, success exactly when every check passes, the record changed to `Apply` of the non-empty update, and the old picture deleted exactly when a new one replaced it |
| Profile.ClearPicture | app/api/profile/delete-profile-image/route.ts:38-40 | corrected: the saved record has no picture and no public id, and nothing else changes |
| Profile.DeleteProfileImage | app/api/profile/delete-profile-image/route.ts:9-52 | as written: 401, 404 for an unknown user, and 404 "No profile image to delete" for every user found, since the public id reads as undefined; nothing changes and nothing is deleted |
| Profile.DeleteProfileImageCorrected | app/api/profile/delete-profile-image/route.ts:9-52 | corrected: 401, 404 for an unknown user or no picture; the remote picture is deleted before the fields are cleared, and a failure there answers 400 with the record unchanged |
| Common.SortedKeys | app/api/chat/conversations/route.ts:18 | every key exactly once, in the requested order of its value |
| Common.Dedup | app/api/chat/conversations/route.ts:42 | the same ids, each once, first occurrence first |
| Common.EncodeURIComponent | app/api/auth/reset-password/route.ts:30 | only unreserved characters, `%` and hex digits come out, and text of unreserved characters passes unchanged |
| AuthPages.Capitalized | app/auth/register/page.tsx:96-98 | the first character upper-cased, the rest unchanged |
| AuthPages.CapitalizedIdempotent | app/auth/register/page.tsx:96-98 | capitalising twice is capitalising once |
| AuthPages.GoogleSignUpMessage | app/auth/register/page.tsx:96-98 | a failed Google sign-up shows "Google sign-up failed" |
| AuthPages.GitHubSignInMessage | app/auth/signin/page.tsx:86-88 | a failed GitHub sign-in shows "Github sign-in failed", from the provider id "github" |
| AuthPages.OAuthOutcome | app/auth/register/page.tsx:73-100 | the page navigates exactly when the result has a URL and no error; otherwise it shows the provider's failure message |
| AuthPages.RequiredEmailIssues | app/auth/register/page.tsx:21 | no issue exactly when the e-mail is non-empty and well formed |
| RegisterPage.NameIssues | app/auth/register/page.tsx:17-20 | no issue exactly when the name has 3 to 25 characters |
| RegisterPage.PasswordIssues | app/auth/register/page.tsx:24-28 | no issue exactly when the password has 8 characters, an upper-case and a lower-case letter, a digit and a special character; each missing one gives its own message |
| RegisterPage.PolicyExample | app/auth/register/page.tsx:24-28 | "Passw0rd!" meets the policy |
| RegisterPage.ShortPasswordRefused | app/auth/register/page.tsx:24-28 | "Aa1!" is refused only for its length |
| RegisterPage.VerifyEmailPath | app/auth/register/page.tsx:69 | the path starts with the verification page and ends with the encoded e-mail |
| RegisterPage.UntilDelimiter | app/auth/register/page.tsx:69 | the query value up to the first `&` or `#` |
| RegisterPage.EmailParam | app/auth/register/page.tsx:69 | the `email` value of a verification path, when it has one |
| RegisterPage.NoDelimiterKept | app/auth/register/page.tsx:69 | an encoded value holds no delimiter and is read back whole |
| RegisterPage.VerifyEmailParamRoundTrip | app/auth/register/page.tsx:69 | the verification page reads back exactly the encoded e-mail the register page put in the path |
| RegisterPage.SubmitOutcome | app/auth/register/page.tsx:55-72 | success goes to the verification page for that e-mail; failure shows the server's error or "Verification failed", never an empty message |
| SignInPage.PasswordIssues | app/auth/signin/page.tsx:17-20 | "Password is required" for an empty password, and no issue exactly when it has at least 6 characters |
| SignInPage.RegisteredCredentialsPass | app/auth/signin/page.tsx:15-21 | every password the register page accepts also passes the sign-in form |
| SignInPage.LoginOutcome | app/auth/signin/page.tsx:43-64 | "CredentialsSignin" shows "Invalid email or password", another error shows as is, and no error goes to "/profile" |
| ForgotPasswordPage.HandleError | app/auth/forgot-password/page.tsx:35-52 | a thrown string, an error's message or an object's `message` field is shown as is; an object without one or any other value shows the default message |
| ForgotPasswordPage.SubmitOutcome | app/auth/forgot-password/page.tsx:54-80 | success goes to the sign-in page after three seconds; failure shows the server's message or "Failed to send reset link", never empty |

## Left out

- The stored user record keeps `friends` and `profileImagePublicId` fields, which the strict schema never fills; the routes as written never change them, and only the corrected routes do.
- Population and `.lean()` are left out: listings return ids or projected records, not joined documents.
- Lengths are counted in code points, not UTF-16 code units.
- Id validity follows the 24-hex-digit or 12-character rule; the normalisation of a 12-character id to its hex form is not modelled.
- Concurrency is not modelled: each route runs to completion against the store, so races between requests, and the unique index catching a concurrent duplicate, are out of scope.
- A `findOne({ email: undefined })`, which matches any user, is not modelled; routes that reach it without an e-mail are treated as finding no user.
- Request bodies that are not JSON, and a `participantIds` that is not an array, are left out; the routes answer them from their catch blocks.
- For provider sign-ins NextAuth hands the `jwt` callback the provider's user id rather than the stored user's id; the model takes the id the callback receives as given.
- The development-mode `error` field of the reset route's 500 answer is left out.
- Pages whose `res.json()` itself fails are left out.
- Socket.io puts every socket in a room named after its own id; the gateway model leaves this room out.
- An acknowledgement is either an error or a message; one with an empty `error` and no `message`, which the hook would write into the list as `undefined`, is not modelled.
- The chat hook's `leaveConversation` and `markSeen` only emit events and are left out; so is the login page's UI state (spinners, toasts).
- Uploads that succeed before a later step refuses the request stay on the media host; the model does not track orphaned uploads.
- Projects.FirstProblem: which failing image's message comes out depends on which upload promise rejects first; the model only promises the message of some failing image.
- The mail transport's outcome is a parameter; connection settings and timeouts are not modelled.
- The mail markup is abbreviated: the model keeps the code or link inside the HTML, not its styling.
- The per-field error lists of the 400 "Invalid input" answers are not built, and a Mongoose validation error is reported by its leading words ("User validation failed") without the field details.
- A `socials` field on the profile form arrives as text, which the schema's object type refuses; the model refuses it the same way and does not model the URL checks inside it. Likewise a text `isCollabrating` on the project form.
- Whether an e-mail is well formed (zod's `email()`) and whether a string is a URL are parameters, not definitions.
- ForgotPasswordPage.HandleError: a `message` field that is not a string is not modelled.
- An OAuth profile without an e-mail is not modelled: the provider record always carries one.
- In the picture-deletion route a session without an e-mail is treated as no session (401), since `findOne({ email: undefined })` is not modelled.
- The conversation index on `{participants, lastMessageAt}` is multikey in the store, so two direct conversations that share one participant and a `lastMessageAt` clash there; the model compares the participant lists whole.
- The user schema's sparse unique index on `username` is not part of the store invariant; no modelled route sets `username`.
- NextAuth's mapping of an error thrown by `authorize` to the `error` the sign-in page receives is outside the model; the page's outcome takes that string as input.

## Findings

| source | as written | input that shows it | evidently intended | confidence | as-written member | corrected member |
|---|---|---|---|---|---|---|
| models/User.ts:106-111 | `generateVerificationOTP` stores the expiry in `verificationOTPExpiry`, but `verifyOTP` checks `verificationExpiry`, which is never set, so the comparison is always false | any sign-up through send-verification, followed by verify-email with the mailed code within ten minutes | the expiry is written to `verificationExpiry`, so the mailed code verifies within ten minutes | not executed | Account.RegisteredUserCannotVerify | Account.RegisteredUserVerifiesWhenCorrected |
| app/api/projects/create-project/route.ts:100-180 | media is built as `{ images: [{url, publicId}], video: {url, publicId} }`, but the project schema stores `images` as strings and the video as `videoUrl` | a project created with one JPEG image: the cast of an object to a string fails and the answer is 500; with only a video, the video is dropped | images stored as their URLs and the video as `videoUrl` | not executed | Projects.CreateProject | Projects.CreateProjectCorrected |
| app/api/friends/accept/route.ts:33-34 | `$addToSet` on `friends`, a path the user schema does not declare, so strict mode casts both updates away | accepting any pending request: neither user's record changes | each party is added to the other's `friends` | not executed | Friends.AcceptAsWrittenAddsNoFriend | Friends.AcceptMakesFriendsBothWays |
| app/api/profile/update-user-details/route.ts:111-122 | the picture's public id is written to and read from `profileImagePublicId`, which the schema does not declare, so it is never stored and always reads as undefined | a profile update with a new picture: the old picture is never deleted from the media host and the new public id is lost | the public id is stored and the replaced picture deleted | not executed | Profile.PublicIdNeverStored | Profile.NewPictureReplacesOld |
| app/api/profile/delete-profile-image/route.ts:27-32 | the guard requires `profileImagePublicId`, which always reads as undefined | any user with a stored picture: the answer is 404 "No profile image to delete" | the picture is deleted and its fields cleared | not executed | Profile.DeleteProfileImage | Profile.DeleteProfileImageCorrected |
