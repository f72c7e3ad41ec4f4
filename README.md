# codershouse voice rooms — a Dafny model

This project models the core of codershouse, a voice-chat rooms application,
and proves properties of that model. The parts modelled are:

- **The client's peer-connection manager** (`useWebRTC`). It keeps one
  RTCPeerConnection per remote peer, the roster of participants, the audio
  element of each participant and the local microphone stream. It answers
  the socket events ADD_PEER, ICE_CANDIDATE, SESSION_DESCRIPTION and
  REMOVE_PEER, and the mute button.
- **The client's route guards.** These are `GuestRoute`, `SemiProtectedRoute`
  and `ProtectedRoute`, together with the route table.
- **The server's one-time-password sign-in** (`sendOtp`, `verifyOtp`).
- **The server's account activation** (`activate`).
- **The client's HTTP layer.** This is the endpoint table and the response
  interceptor that refreshes the tokens once on a 401.

The files are:

- `Common.dfy`: the optional value, and JavaScript's decimal rendering `${n}`
  and unary `+` restricted to natural numbers. It also has `split` on one
  character.
- `Roster.dfy`: the three updaters of the `clients` state, as pure functions.
- `PeerManager.dfy`: the hook as a class.
  - Its fields are the hook's refs and state.
  - Its methods are the handlers, each running to completion.
  - A ghost trace records every call the hook makes on the browser or the
    socket: connections, tracks, audio elements and emitted events.
- `Routes.dfy`: the guards, the route table and the loader switch.
- `Server.dfy`: the user collection and the shape of a reply.
- `Otp.dfy`: the OTP envelope, the signed string, the expiry test and both
  handlers.
- `Activation.dfy`: the data-URL prefix strip, the image file name and the
  handler.
- `Http.dfy`: the endpoint table and the interceptor.
  - `RunRequest` is a specification function over a script of server
    answers.
  - `Dispatch` is a method over a mutable request config proved against
    `RunRequest`.

Several external things are parameters of the handlers:

- what `getUserMedia` resolves to;
- the OTP, the hash function and the signature check;
- the clock and the random number;
- whether Jimp can read the image;
- whether the database throws;
- the SDP strings that `createOffer` and `createAnswer` produce.

## Model

| member | source | states |
|---|---|---|
| Common.NatToString | backend/controllers/auth-controller.js:17-18 | the rendering of a time stamp is a non-empty digit string without a leading zero |
| Common.DigitsValueOfNatToString | backend/controllers/auth-controller.js:18-43 | reading the rendered expiry back as a number gives the same number |
| Common.NatToStringInjective | backend/controllers/auth-controller.js:18 | different numbers render differently |
| Common.ToNumber | backend/controllers/auth-controller.js:43 | `+s` is a number exactly when `s` is a digit string; any other string is NaN |
| Common.ToNumberOfNatToString | backend/controllers/auth-controller.js:17-43 | `+` of a rendered natural is that natural |
| Common.Split | backend/controllers/auth-controller.js:42 | `split` yields at least one part and no part holds the separator |
| Common.JoinSplit | backend/controllers/auth-controller.js:42 | joining the parts with the separator gives the string back |
| Common.SplitWithoutSeparator | backend/controllers/auth-controller.js:42 | a string without the separator splits into itself alone |
| Common.SplitAtFirstSeparator | backend/controllers/auth-controller.js:42 | the first separator ends the first part and the remainder splits on its own |
| Common.SplitFirstTwo | backend/controllers/auth-controller.js:42 | the first part is the whole string exactly when the separator is absent; otherwise the string starts with the first part, the separator and the second part |
| Roster.Find | frontend/src/hooks/useWebRTC.js:20 | the index of the first entry with the id, or none exactly when no entry has it |
| Roster.AddNewClient | frontend/src/hooks/useWebRTC.js:18-25 | the id is in the result; the old roster is a prefix of it; the length stays the same exactly when the id was present; a new entry is `{...user, muted: true}` at the end |
| Roster.AddNewClientKeepsUnique | frontend/src/hooks/useWebRTC.js:18-25 | adding keeps the roster ids unique |
| Roster.AddNewClientIdempotent | frontend/src/hooks/useWebRTC.js:20-22 | adding an id a second time, with any profile, changes nothing |
| Roster.RemoveClient | frontend/src/hooks/useWebRTC.js:219-221 | an entry survives exactly when it was there and its id differs; the result is no longer |
| Roster.RemoveClientRemovesId | frontend/src/hooks/useWebRTC.js:219-221 | no entry with the removed id remains |
| Roster.RemoveAbsentClient | frontend/src/hooks/useWebRTC.js:219-221 | removing an absent id leaves the roster unchanged |
| Roster.RemoveClientKeepsOrder | frontend/src/hooks/useWebRTC.js:219-221 | two surviving entries keep their relative order |
| Roster.RemoveClientKeepsUnique | frontend/src/hooks/useWebRTC.js:219-221 | removal keeps the ids unique |
| Roster.SetMuted | frontend/src/hooks/useWebRTC.js:250-256 | same length and profiles; entries with the id get `muted == mute`; every other entry is unchanged |
| Roster.SetMutedKeepsUnique | frontend/src/hooks/useWebRTC.js:250-256 | muting keeps the ids unique |
| Roster.SetMutedObserved | frontend/src/hooks/useWebRTC.js:250-256 | after muting a present id, that entry reports the new flag |
| PeerManager.StopAll | frontend/src/hooks/useWebRTC.js:51 | the forEach loop over the stream's tracks makes one `stop` call per track (also at line 82) |
| PeerManager.EnableAll | frontend/src/hooks/useWebRTC.js:241-243 | the forEach loop over the audio tracks makes one `enabled` assignment per track |
| PeerManager.AddTracks | frontend/src/hooks/useWebRTC.js:127-131 | the forEach loop makes one `addTrack(track, stream)` call per local track |
| PeerManager.ForEachCallsInOrder | frontend/src/hooks/useWebRTC.js:127-131 | a helper about the model's own call lists, not a property of the source: the k-th entry of StopAll, EnableAll and AddTracks is the call on the k-th track (the observable facts are EnableAllObserved, StopAllObserved and MuteCallsObserved) |
| PeerManager.MuteCallsObserved | frontend/src/hooks/useWebRTC.js:238-249 | the mute button's calls, the loop over the audio tracks and then one emit, add exactly that event, and every audio track ends up showing the flag that was set |
| PeerManager.AudioTracks | frontend/src/hooks/useWebRTC.js:241-242 | exactly the audio tracks of the stream |
| PeerManager.EmittedAppend | frontend/src/hooks/useWebRTC.js:65-68 | a fact about the call log: the socket events in two consecutive stretches of it are those of the first stretch, then those of the second (used at every emit, JOIN at lines 65-68 among them) |
| PeerManager.TrackCallsEmitNothing | frontend/src/hooks/useWebRTC.js:241-243 | a fact about the call log: a stretch of track `enabled` or `stop` calls, such as the loops at lines 80-82 and 241-243, holds no socket event |
| PeerManager.EnableAllObserved | frontend/src/hooks/useWebRTC.js:241-243 | after the forEach loop, each track in it was last set to the given `enabled` value; every other track keeps its earlier state |
| PeerManager.StopAllObserved | frontend/src/hooks/useWebRTC.js:80-82 | after the forEach loop, a track has been stopped exactly when it was stopped before or is one of the stream's tracks |
| PeerManager.AddTracksEmitNothing | frontend/src/hooks/useWebRTC.js:126-132 | adding tracks to a connection emits no socket event |
| PeerManager.EmittedNegotiation | frontend/src/hooks/useWebRTC.js:134-142 | create, set the local description, relay: exactly one RELAY_SDP is emitted |
| PeerManager.Manager.constructor | frontend/src/hooks/useWebRTC.js:8-13 | the hook starts with an empty roster, no connections, no audio elements and no stream |
| PeerManager.Manager.ConnectionsDistinct | frontend/src/hooks/useWebRTC.js:99-105 | two peer ids never share a connection object |
| PeerManager.Manager.StartCapture | frontend/src/hooks/useWebRTC.js:43-74 | a failed capture changes nothing. After teardown, the new stream's tracks are all stopped, nothing else changes and JOIN is not emitted. Otherwise the stream is stored, the local user is added muted, the callback that silences their element and plays the stream is queued behind the roster update, and exactly one JOIN is emitted, with no element call before it |
| PeerManager.Manager.RunCallback | frontend/src/hooks/useWebRTC.js:57-63 | the oldest queued `addNewClient` callback runs once: if the user's element has been provided by then, it is silenced (local user only) and the stream is played on it; otherwise nothing happens. Nothing is emitted |
| PeerManager.Manager.FirstJoin | frontend/src/hooks/useWebRTC.js:55-68 | on a first join, JOIN is emitted first; then, once the new entry's element has been provided, that same element is silenced and plays the local stream |
| PeerManager.Manager.Teardown | frontend/src/hooks/useWebRTC.js:76-87 | every local track is stopped, then the stream is cleared, then exactly one LEAVE is emitted; the connections and roster are untouched |
| PeerManager.Manager.HandleNewPeer | frontend/src/hooks/useWebRTC.js:94-143 | a known peer id changes nothing. Otherwise exactly one fresh connection is stored under it and every local track is added to it. With `createOffer`, an offer is created and set as the local description, then one RELAY_SDP to that peer id is emitted; nothing is emitted without it |
| PeerManager.Manager.OpenConnection | frontend/src/hooks/useWebRTC.js:101-105 | a fresh connection is stored under the peer id, and its callbacks are bound to that peer and remote user |
| PeerManager.Manager.AddLocalTracks | frontend/src/hooks/useWebRTC.js:126-132 | `pc.addTrack(track, stream)` is called for every track, in order, and nothing is emitted |
| PeerManager.Manager.OnIceCandidate | frontend/src/hooks/useWebRTC.js:107-114 | a candidate is relayed, once, to the peer id the connection was created for; the end-of-candidates event is not relayed |
| PeerManager.Manager.OnTrack | frontend/src/hooks/useWebRTC.js:116-124 | the remote user is added to the roster, and the callback that plays the first received stream on their element is queued behind that update; no call is made on an element yet |
| PeerManager.Manager.HandleIce | frontend/src/hooks/useWebRTC.js:154-163 | the candidate is applied to the connection only when both the candidate and the connection exist; otherwise nothing happens |
| PeerManager.Manager.HandleSessionDescription | frontend/src/hooks/useWebRTC.js:174-194 | an unknown peer id does nothing. A known peer's remote description is set. An offer is answered: the answer is set as the local description and exactly one RELAY_SDP of it is emitted. Any other type emits nothing |
| PeerManager.Manager.HandleRemovePeer | frontend/src/hooks/useWebRTC.js:211-222 | as written. A connection under `peerID` is closed and then deleted. The audio element and the roster entries of `userId` are removed. Nothing else changes. A payload carrying only `peerId` leaves every connection open |
| PeerManager.Manager.HandleRemovePeerByPeerId | frontend/src/hooks/useWebRTC.js:211-222 | corrected to read `peerId`: afterwards no connection remains under `peerId`, with the rest as for the handler as written |
| PeerManager.Manager.RemovePeer | frontend/src/hooks/useWebRTC.js:212-221 | close then forget the connection under the key if there is one, delete the audio element and filter the roster |
| PeerManager.Manager.HandleMute | frontend/src/hooks/useWebRTC.js:238-257 | with no stream, nothing changes. Otherwise every audio track ends with `enabled == !mute`, exactly one MUTE or UNMUTE is emitted, and only the matching roster entry has its flag changed |
| PeerManager.Manager.ProvideRef | frontend/src/hooks/useWebRTC.js:262-264 | the audio element is stored under the user id and the other elements are kept |
| Routes.GuestRoute | frontend/src/App.js:32-35 | renders exactly when not authenticated; otherwise redirects to `/rooms` |
| Routes.SemiProtectedRoute | frontend/src/App.js:38-44 | renders exactly when authenticated and not activated; redirects to `/` when not authenticated and to `/rooms` when activated |
| Routes.ProtectedRoute | frontend/src/App.js:47-53 | renders exactly when authenticated and activated; redirects to `/` when not authenticated and to `/activate` when not activated |
| Routes.ExactlyOneGuardRenders | frontend/src/App.js:32-53 | in every auth state exactly one of the three guards renders |
| Routes.GuardOf | frontend/src/App.js:21-25 | the guard each `<Route>` wraps its page in: `GuestRoute` exactly for `/` and `/authenticate`, `SemiProtectedRoute` exactly for `/activate`, `ProtectedRoute` exactly for `/rooms` and `/room/:id` |
| Routes.PathOf | frontend/src/App.js:21-25 | the path each `<Route>` declares starts with `/`; it starts with `/room/` exactly for a room, and then the rest is the room's id |
| Routes.Match | frontend/src/App.js:21-25 | the page a path selects is the one declared with that path; a `/room/:id` match carries one non-empty segment without a slash |
| Routes.MatchPathOf | frontend/src/App.js:21-25 | conversely every declared path selects its page: `/`, `/authenticate`, `/activate`, `/rooms`, and `/room/` followed by any one segment that room |
| Routes.Resolve | frontend/src/App.js:21-53 | the router shows something exactly for a path of the table, and every `Navigate` a guard returns leads to a path of the table |
| Routes.Settle | frontend/src/App.js:21-53 | after following redirects, the page finally rendered is one whose guard admits the auth state: a visitor only sees guest pages, an activated user only protected ones |
| Routes.NoRedirectLoop | frontend/src/App.js:21-25 | from any route of the table a rendering page is reached within two redirects; after a redirect that page is `/`, `/activate` or `/rooms` according to the auth state |
| Routes.App | frontend/src/App.js:15-28 | the loader "Loading, please wait..." is shown exactly while loading; otherwise the router is shown |
| Server.UserStore.FindByPhone | backend/controllers/auth-controller.js:55 | finds the first stored user with the phone, or none exactly when no such user exists |
| Server.UserStore.FindById | backend/controllers/activate-controller.js:38 | finds the user with the id, or none exactly when no such user exists |
| Server.UserStore.Create | backend/controllers/auth-controller.js:57 | appends exactly one unactivated user with the phone and a fresh id |
| Server.UserStore.Save | backend/controllers/activate-controller.js:46 | replaces the record with that id and no other |
| Server.Present | backend/controllers/auth-controller.js:10 | the `!field` truthiness test: a string field of `req.body` is falsy exactly when it is missing or empty (also at auth-controller.js:38 and activate-controller.js:11) |
| Otp.Interpolate | backend/controllers/auth-controller.js:18 | `${field}` gives the field's string, or `undefined` for a missing field (also at line 47) |
| Otp.VerifiedData | backend/controllers/auth-controller.js:47 | the string `verifyOtp` checks is the posted phone, a dot, the posted OTP, a dot and the envelope's expiry part, or `undefined` when the envelope has no dot |
| Otp.RejectionMessage | backend/controllers/auth-controller.js:38-51 | the three refusals have the messages of lines 39, 44 and 50, and each message names exactly one refusal |
| Otp.SignedData | backend/controllers/auth-controller.js:18 | the signed string is the phone, a dot, the OTP, a dot and the expiry, each at its own position; `verifyOtp` builds it with the same function (line 47) |
| Otp.Envelope | backend/controllers/auth-controller.js:25 | the envelope is the hash, a dot, then the expiry's decimal digits |
| Otp.SplitEnvelope | backend/controllers/auth-controller.js:42 | the hash part never holds a dot; the expiry part is undefined exactly when the envelope has no dot, and then the hash part is the whole envelope; otherwise the envelope starts with hash part, dot, expiry part |
| Otp.Expired | backend/controllers/auth-controller.js:43 | only an expiry that reads as a number can have passed |
| Otp.SignedDataRoundTrip | backend/controllers/auth-controller.js:18 | the signed string `phone.otp.expires` splits back into phone, OTP and expiry when phone and OTP have no dot |
| Otp.EnvelopeRoundTrip | backend/controllers/auth-controller.js:25-42 | splitting the envelope `hash.expires` at the dot gives back the hash and the rendered expiry, for a hash without a dot |
| Otp.ExpiryBoundary | backend/controllers/auth-controller.js:43-45 | an envelope's expiry has passed exactly when now > expires; at now == expires the OTP is still accepted |
| Otp.NonNumericExpiryNeverExpires | backend/controllers/auth-controller.js:43 | an expiry holding a character no JavaScript number is written with is NaN, and never counts as expired, whatever the clock |
| Otp.SendOtp | backend/controllers/auth-controller.js:8-33 | as written. With a phone, the one reply carries the envelope with expiry now + 120000 and the hash of `phone.otp.expires`, and the handler ends normally. Without one, three replies are attempted: the 400, the OTP reply still under status 400, and the catch block's 500; the handler then ends in an exception, exactly when the phone is missing |
| Otp.SendOtpGuarded | backend/controllers/auth-controller.js:10-12 | corrected with a `return`: exactly one reply, which is the 400 exactly when the phone is missing, and otherwise the envelope |
| Otp.CheckOtp | backend/controllers/auth-controller.js:38-51 | the checks run in order. A missing field is refused. Otherwise an expired OTP is refused. Otherwise a failing signature is refused. Only when all pass is the request accepted |
| Otp.MissingFieldRefusedFirst | backend/controllers/auth-controller.js:38-40 | a request missing a field is refused the same way whatever the clock and the signature check say |
| Otp.SentOtpVerifies | backend/controllers/auth-controller.js:16-51 | an OTP sent by `sendOtp` for any non-empty phone and OTP, dots included, and presented back unchanged no later than its expiry, passes every check |
| Otp.VerifyOtp | backend/controllers/auth-controller.js:35-74 | a failed check or a database error replies 500 without touching the store. Otherwise an existing user is reused, or exactly one user is created, and the tokens are issued for that id with `activated: false`, together with the 30-day httpOnly refresh cookie |
| Activation.StripDataUrl | backend/controllers/activate-controller.js:17 | the string is unchanged exactly when it has none of the three prefixes; otherwise one leading prefix is removed and the rest is kept |
| Activation.StripDataUrlOfPrefixed | backend/controllers/activate-controller.js:17 | a png, jpg or jpeg data URL gives back exactly its payload, and only one prefix is removed |
| Activation.StripDataUrlLeavesOthers | backend/controllers/activate-controller.js:17 | a gif data URL is left unchanged, and so is a png or jpeg prefix that follows a non-empty head whose first character is not `d` |
| Activation.ImagePath | backend/controllers/activate-controller.js:20-22 | the file name is the timestamp's digits, a dash, the number's digits and `.png`, whatever the input type |
| Activation.ImagePathInjective | backend/controllers/activate-controller.js:20-22 | different timestamp and number pairs give different file names |
| Activation.Activate | backend/controllers/activate-controller.js:7-51 | a missing field replies 400 before any image work. An unreadable image replies 500 and the user is never looked up. An unknown user replies 404 with nothing changed. On success the record gets `activated`, the name and `/storage/` + the same file name the image is written under, and the reply carries `auth: true` |
| Http.EndpointTarget | frontend/src/http/index.js:15-22 | every path lies under `/api/`; exactly `refresh`, `getAllRooms` and `getRoom` are GETs; exactly the four endpoints that take `data` send a body |
| Http.GetRoomTarget | frontend/src/http/index.js:22 | `getRoom(id)` is a GET of `/api/rooms/` followed by the id |
| Http.EndpointTableInjective | frontend/src/http/index.js:15-22 | no two endpoints share a method and path |
| Http.OnError | frontend/src/http/index.js:30-52 | refresh-and-retry is chosen exactly for a 401 on a config not yet marked; a missing or zero status rejects |
| Http.RunRequest | frontend/src/http/index.js:27-54 | every settled request consumes at least one answer and first sends itself |
| Http.SuccessPassesThrough | frontend/src/http/index.js:28 | a success resolves with the response and nothing more is sent |
| Http.OtherErrorsRejected | frontend/src/http/index.js:33-52 | an error without a status, or with one other than 401, is rejected with that error and nothing more is sent |
| Http.MarkedRequestNotRetried | frontend/src/http/index.js:40 | a 401 on an already-marked request is rejected without a refresh |
| Http.UnauthorizedRefreshesThenRetries | frontend/src/http/index.js:40-45 | a 401 sends the refresh, then reissues the marked request once, and settles as the reissued request does |
| Http.FailedRefreshNotRetried | frontend/src/http/index.js:46-49 | a failed refresh settles the request with the refresh's outcome, and the original request is not sent again |
| Http.AtMostOneRefresh | frontend/src/http/index.js:40-49 | with the refresh marked, a request sends at most itself, one refresh and itself again; a marked request sends only itself |
| Http.RefreshRecursesAsWritten | frontend/src/http/index.js:43-44 | as written, a refresh answered with 401 is refreshed again, until the answers run out |
| Http.UnboundedRefreshesAsWritten | frontend/src/http/index.js:43-44 | as written, three 401 answers already make one request send two refreshes |
| Http.RefreshMarkedSettles | frontend/src/http/index.js:43-49 | with the refresh marked, a 401 to the refresh rejects the request with the refresh's error |
| Http.Network.Send | frontend/src/http/index.js:44-45 | a request consumes the next answer and is logged as sent |
| Http.Dispatch | frontend/src/http/index.js:27-54 | the imperative interceptor settles as `RunRequest` says, sends what it lists and consumes what it consumes; a config is marked exactly when it was marked already or its first answer was a 401 |

## Left out

- The socket's creation and disconnection (frontend/src/hooks/useWebRTC.js:30-35), and the registration and removal of the event handlers, are socket.io plumbing. Each handler is a method that runs to completion; React's scheduling and interleaving across `await` are not modelled.
- PeerManager.Manager.HandleNewPeer and PeerManager.Manager.HandleSessionDescription assume that `createOffer`, `createAnswer`, `setLocalDescription` and `setRemoteDescription` resolve. In the source a rejected await ends the handler early, before RELAY_SDP (lines 135-138 and 181-189). The model does not cover that path.
- PeerManager.Manager.StartCapture: the model covers one run of the capture effect. Its `mounted` field stands for the effect's `let mounted` (frontend/src/hooks/useWebRTC.js:41), which is fresh each time the effect re-runs after `roomId`, `user` or `addNewClient` change (line 88). After Teardown the model refuses every later capture, and it does not model a re-run.
- PeerManager.Manager.RunCallback: `useStateWithCallback` is not part of this model. The model queues each callback passed to `addNewClient` and runs them oldest first, after the roster update. It does not capture a hook that keeps only the latest callback, or one that skips the callback when the state is unchanged.
- The relay side is not part of this model: the room registry, the JOIN fan-out and the offerer choice. The `createOffer` flag and the payloads arrive as parameters.
- The connection, track, audio-element and socket objects are opaque. Each call the hook makes on one is recorded in a ghost trace. ICE servers, `audio.volume` and `srcObject` are not modelled beyond being recorded as calls.
- ICE candidates are not queued: `handleIce` applies a candidate at once (frontend/src/hooks/useWebRTC.js:159), and so does the model.
- Teardown does not close the peer connections (frontend/src/hooks/useWebRTC.js:76-87); the model keeps them open, as the code does.
- PeerManager.Manager.HandleRemovePeer: when `peerID` is absent, JavaScript looks up the key `"undefined"`. The model treats that as finding no connection, so a peer actually named `"undefined"` is not covered.
- PeerManager.Manager.ProvideRef: React's call with a `null` instance on unmount is not modelled; the element stays stored.
- Routes.Match: react-router's case-insensitive and trailing-slash matching and the `Navigation` bar are not modelled. A path outside the table shows nothing. Match works on the raw path; react-router percent-decodes a matched segment before handing `:id` to the page, so `/room/a%2Fb` can give the page the id `a/b`, which the "no slash" property does not cover.
- Server.Present: body fields are modelled as strings or absent. JavaScript's `!field` is also true for `null`, `0` and `false`, and a JSON body can carry numbers, booleans and objects. A truthy non-string `hash` makes `hash.split` throw at backend/controllers/auth-controller.js:42, and a truthy non-string `avatar` makes `avatar.replace` throw at backend/controllers/activate-controller.js:17; neither is inside a `try`, so the handler's promise rejects and nothing is sent. These paths are not covered.
- Common.ToNumber: only strings of decimal digits are numbers. JavaScript also reads a sign, surrounding white space, fractions, exponents, radix prefixes and `Infinity`. An envelope made by `sendOtp` never holds them, but `verifyOtp` splits whatever `hash` the client posts.
- Otp.CheckOtp and Otp.VerifyOtp: through `Common.ToNumber`, a client-posted expiry such as `-1`, ` 5`, `1e3`, `0x10` or `1.5` counts as "not expired" in the model. JavaScript reads these as numbers that can have passed, and then the handler replies "OTP expired!". Otp.NonNumericExpiryNeverExpires is therefore stated only for expiries holding a character that no JavaScript number contains.
- Common.NatToString: JavaScript's exponent notation for numbers of 1e21 and above is not modelled; a millisecond timestamp stays far below that.
- The user record's schema, `UserDto` and the access and refresh tokens are not modelled. They are JWT signing and database storage (backend/services/token-service.js). A reply records the claims the tokens are issued for instead.
- OTP generation, hashing, signature checking, the clock, `Math.random` and Jimp's decoding and resizing are parameters, not implementations. The file write Jimp starts is not awaited and its failure is not modelled.
- Activation.Activate: a database error is modelled as one flag checked before the lookup. This covers `findUser` and `save` throwing alike.
- Otp.SendOtp: Express refuses a second reply on the same response by throwing. The model lists every reply the handler attempts, in order; the client receives the first. Without a phone, the catch block's own write (auth-controller.js:31) throws again and nothing catches it, so the handler's promise rejects; the model reports this as `escapes` and does not model what Express or Node do with the unhandled rejection.
- Server.UserStore: the database is a sequence whose positions are the ids. Connection errors are the `dbFails` flag of each handler.
- Http.RunRequest: the server is a script of answers, one per request sent. When the script runs out before the request settles, the result is `Stalled`, which stands for a request still pending. The axios base URL, headers and credentials and the `console.error` logging are not modelled.

## Findings

| source | as written | input that shows it | evidently intended | confidence | as-written member | corrected member |
|---|---|---|---|---|---|---|
| frontend/src/hooks/useWebRTC.js:211-214 | REMOVE_PEER reads `peerID`, while every other handler in the hook reads `peerId` (useWebRTC.js:95, 154, 175); the relay's REMOVE_PEER payload is not among the files modelled, so whether it sends `peerID` decides the matter | REMOVE_PEER `{ peerId: "p", userId: "u" }` while a connection is stored under `"p"` | close and delete the connection under `peerId` | medium, not executed: depends on the relay's payload | PeerManager.Manager.HandleRemovePeer | PeerManager.Manager.HandleRemovePeerByPeerId |
| backend/controllers/auth-controller.js:10-12 | no `return` after the 400 reply, so an OTP is still signed, a second and third reply are attempted, and the catch block's write throws out of the handler, whose promise rejects | a body without `phone` | stop after the 400 reply, as every other guard of the controllers does | high, not executed | Otp.SendOtp | Otp.SendOtpGuarded |
| frontend/src/http/index.js:43-44 | the refresh request goes through the same interceptor with its own unmarked config, so a 401 to the refresh triggers another refresh | a server answering 401 to every request, such as after the refresh token expires | at most one refresh per request; a failing refresh rejects | medium, not executed | Http.UnboundedRefreshesAsWritten | Http.AtMostOneRefresh |
