# RiversideClone core, modelled in Dafny

RiversideClone is a browser app for recording podcasts and video sessions. A
host creates a room with a short join code. Guests join the room by its
code. One recording session after another is started and stopped in the
room. Camera, microphone and screen capture are sent to each peer over
WebRTC. This project models the logic behind that and proves properties of
the model:

- `schema.dfy` (module `Schema`): the four table shapes of the hosted
  database (profiles, rooms, recordings, participants). Each table has a
  row, an insert shape (columns with a database default may be omitted) and
  an update shape (every column may be omitted; there is no `created_at`).
  Also the four-valued recording status.
- `rooms.dfy` (module `Rooms`): the room hook over a `Database` object that
  holds three tables and the signed-in user. It covers:
  - creating a room, with a code taken from the text of a random number;
  - joining by code, and leaving;
  - starting and stopping a recording;
  - the two owner listings (newest first);
  - the participants refetch that follows a change event.
- `listing.dfy` (module `Listing`): the two query shapes the hook uses over
  a table. One is an equality filter. The other is an ordering by
  descending `created_at`.
- `webrtc.dfy` (module `WebRtc`): the media hook. It covers:
  - the local stream, and enabling or disabling its tracks;
  - the media state shown to the user;
  - swapping the camera track for a screen capture and back, in the local
    stream and in every peer connection's video sender;
  - the peer connection map and its state handlers;
  - remote streams, and teardown.
  Browser tracks and peer connections are objects with identity. The model
  allocates ids for them, so one track shared by the stream and by a sender
  is one value.
- `studio.dfy` (module `Studio`): the studio screen's `HH:MM:SS` timer text,
  and the recording, timer, camera, microphone and screen flags its buttons
  change.
- `app.dfy` (module `App`): the top-level view state (landing, dashboard or
  studio, plus the user name), its four handlers and which screen is
  rendered.
- `wrappers.dfy` (module `Wrappers`): `Option` and `Result`.

Some things are inputs to the model rather than computed by it:

- the keys the database generates;
- the current time;
- the text `Math.random().toString(36)` produces;
- whether the browser grants a capture;
- the connection-state and track events the browser fires.

### Behaviour of the code worth noting

- A room code has at most six characters. It is cut from the text of a
  random number. A short text such as `"0.i"` (for 0.5) gives a
  one-character code (`Rooms.ShortRandomTextGivesShortCode`).
- Nothing checks whether a recording is already running before another
  starts.
- Joining twice adds two present participant rows.
- When screen sharing stops, the old camera track is not restored. It was
  stopped when sharing began, and a new camera track replaces the screen
  track.
- When the browser ends the screen capture, the handler acquires a new
  local stream. It does not redirect any peer's sender.
- `cleanup` depends on the local stream, and an effect returns it as its
  teardown. So every new stream object runs the closure made for the
  previous one (`WebRtc.WebRtcHook.StreamChangedEffect`).
  - On the first acquisition, the closure closes every mapped connection
    and empties both maps.
  - When a new stream replaces an existing one, the closure clears the
    stream. That change runs the closure made for the new stream, which
    stops the new stream's tracks.
  - So a re-acquired stream, such as the one made when the screen capture
    ends, leaves no local stream.

## Model

| member | source | states |
|---|---|---|
| Schema.ParseStatus | src/lib/database.types.ts:71 | the status column reads back exactly the four literals recording, processing, completed and failed; any other text has no status |
| Schema.StatusRoundTrip | src/lib/database.types.ts:71 | every status's text reads back as that status |
| Schema.ProfileFromInsert | src/lib/database.types.ts:13-20 | the stored profile keeps the given columns; an omitted avatar is null; omitted timestamps take the insert time |
| Schema.ProfileInsertRoundTrip | src/lib/database.types.ts:5-20 | inserting a row with every column given stores exactly that row |
| Schema.ApplyProfileUpdate | src/lib/database.types.ts:21-27 | an update never changes created_at; the empty update changes nothing |
| Schema.ProfileUpdatesCompose | src/lib/database.types.ts:21-27 | two successive updates equal one merged update in which the later one wins per column |
| Schema.RoomFromInsert | src/lib/database.types.ts:41-51 | omitted is_active and max_participants take the database defaults; an omitted description is null; an omitted id is the generated key |
| Schema.RoomInsertRoundTrip | src/lib/database.types.ts:30-51 | inserting a full room row stores exactly that row |
| Schema.ApplyRoomUpdate | src/lib/database.types.ts:52-61 | a room update never changes created_at; the empty update changes nothing |
| Schema.RoomUpdatesCompose | src/lib/database.types.ts:52-61 | successive room updates compose into one merged update |
| Schema.RecordingFromInsert | src/lib/database.types.ts:75-85 | omitted duration and status take the defaults; omitted file_url and thumbnail_url are null |
| Schema.RecordingInsertRoundTrip | src/lib/database.types.ts:64-85 | inserting a full recording row stores exactly that row |
| Schema.ApplyRecordingUpdate | src/lib/database.types.ts:86-95 | a recording update never changes created_at; the empty update changes nothing |
| Schema.RecordingUpdatesCompose | src/lib/database.types.ts:86-95 | successive recording updates compose into one merged update |
| Schema.ParticipantFromInsert | src/lib/database.types.ts:106-113 | a new participant is present exactly when left_at is omitted or null; an omitted is_host takes the default |
| Schema.ParticipantInsertRoundTrip | src/lib/database.types.ts:98-113 | inserting a full participant row stores exactly that row |
| Schema.ApplyParticipantUpdate | src/lib/database.types.ts:114-121 | an update that sets left_at makes the row present exactly when it sets null; one that omits it keeps presence |
| Listing.Filter | src/hooks/useRoom.ts:156-160 | an equality filter keeps exactly the matching rows, each as often as in the table, and no others |
| Listing.FilterAppend | src/hooks/useRoom.ts:207-214 | filtering a table with a row appended is filtering the table, then the row |
| Listing.SortNewestFirst | src/hooks/useRoom.ts:160 | ordering by created_at descending gives a permutation of its input with non-increasing created_at |
| Listing.SortKeepsMembers | src/hooks/useRoom.ts:181 | the ordering keeps exactly the rows of its input |
| Rooms.GenerateRoomCode | src/hooks/useRoom.ts:19 | for any text Math.random().toString(36) produces, the code has at most six characters, each a digit or an upper-case letter; a text of eight or more characters gives exactly six |
| Rooms.ShortRandomTextGivesShortCode | src/hooks/useRoom.ts:19 | the text for 0.5, "0.i", gives the one-character code "I" |
| Rooms.LeftAfter | src/hooks/useRoom.ts:94-99 | leaving keeps every row in place; which rows change is stated by LeaveChangesOnlyLeavingRows |
| Rooms.LeaveChangesOnlyLeavingRows | src/hooks/useRoom.ts:94-99 | leaving sets left_at to now on exactly the caller's present rows in the current room, and on no other row or column |
| Rooms.LeaveEndsPresence | src/hooks/useRoom.ts:94-99 | after leaving, the caller has no present row in that room; every other user's rows are unchanged |
| Rooms.PresentParticipants | src/hooks/useRoom.ts:207-216 | the refetch yields exactly the room's rows whose left_at is null, each as often as stored |
| Rooms.JoinThenLeaveRestoresPresence | src/hooks/useRoom.ts:66-72 | joining and then leaving restores the room's present participant list, provided the caller was not already present |
| Rooms.RejoinThenLeaveEndsBothRows | src/hooks/useRoom.ts:94-99 | after a second join, a single leave ends both of the caller's rows |
| Rooms.StoppedAfter | src/hooks/useRoom.ts:132-139 | stopping a recording whose key is not in the table changes nothing |
| Rooms.UserRooms | src/hooks/useRoom.ts:156-163 | the room listing is exactly the caller's hosted rooms, each as often as stored, newest first |
| Rooms.UserRecordings | src/hooks/useRoom.ts:174-184 | the recording listing is exactly the recordings of rooms the caller hosts, each as often as stored, newest first |
| Rooms.Database.InsertRoom | src/hooks/useRoom.ts:24-36 | the insert succeeds exactly when the key is new; the stored row is appended and returned; otherwise DuplicateKey and the table is unchanged; keys stay unique |
| Rooms.Database.InsertParticipant | src/hooks/useRoom.ts:66-74 | the same for the participants table |
| Rooms.Database.InsertRecording | src/hooks/useRoom.ts:112-122 | the same for the recordings table |
| Rooms.Database.UpdateLeft | src/hooks/useRoom.ts:94-99 | the loop sets left_at on every selected row and on no other; the new table is that of LeaveChangesOnlyLeavingRows |
| Rooms.Database.UpdateStopped | src/hooks/useRoom.ts:132-143 | every row with the key becomes processing with the given duration and update time; the call succeeds exactly when the key exists; otherwise NotExactlyOneRow with the table unchanged |
| Rooms.RoomHook.constructor | src/hooks/useRoom.ts:10-14 | initially no rooms, no current room, no recordings, no participants, not loading |
| Rooms.RoomHook.CreateRoom | src/hooks/useRoom.ts:16-46 | without a signed-in user: NotAuthenticated, nothing inserted, current room unchanged; otherwise exactly one room hosted by the caller, active, with the generated code, becomes the current room; loading ends false |
| Rooms.RoomHook.JoinRoom | src/hooks/useRoom.ts:48-84 | succeeds only for the single active room with that code; then the caller is appended as a present participant, host exactly when they host the room, and the room becomes current; on any error no participant is added and the current room is unchanged |
| Rooms.RoomHook.LeaveRoom | src/hooks/useRoom.ts:86-106 | with no current room or no user nothing changes; otherwise the participants table becomes LeftAfter, and the current room and participant list are cleared |
| Rooms.RoomHook.StartRecording | src/hooks/useRoom.ts:108-128 | without a current room: NoActiveRoom and no insert; otherwise one recording in the current room with the title and status recording |
| Rooms.RoomHook.StopRecording | src/hooks/useRoom.ts:130-149 | the recordings table becomes StoppedAfter; success exactly when the key exists |
| Rooms.RoomHook.FetchUserRooms | src/hooks/useRoom.ts:151-167 | the rooms list becomes UserRooms for the signed-in user; without a user it is unchanged |
| Rooms.RoomHook.FetchRecordings | src/hooks/useRoom.ts:169-188 | the recordings list becomes UserRecordings; without a user it is unchanged |
| Rooms.RoomHook.OnParticipantsChange | src/hooks/useRoom.ts:205-217 | as long as there is a current room, the participant list becomes that room's present rows |
| WebRtc.FirstOfKind | src/hooks/useWebRTC.ts:40 | the result is the index of the first track of the kind, and there is none exactly when no track of the stream has the kind |
| WebRtc.FirstOfKindAt | src/hooks/useWebRTC.ts:70 | an index that has the kind, with no earlier index of the kind, is the one found |
| WebRtc.FirstOfKindIgnoresFlags | src/hooks/useWebRTC.ts:40-42 | which track is found depends only on the kinds, so flipping enabled flags does not change it |
| WebRtc.ToggleFlipsFirstTrack | src/hooks/useWebRTC.ts:38-56 | a toggle flips the enabled flag of exactly the first track of its kind, and the media state reports the new flag |
| WebRtc.ToggleTwiceRestores | src/hooks/useWebRTC.ts:38-56 | toggling twice restores every track; the media flag then equals the track's original flag |
| WebRtc.ToggleLeavesOtherKind | src/hooks/useWebRTC.ts:38-56 | a toggle never changes the other kind's media flag, the screen flag, or any track of another kind |
| WebRtc.Toggled | src/hooks/useWebRTC.ts:38-56 | a toggle never adds or removes a track; what it flips is stated by ToggleFlipsFirstTrack |
| WebRtc.WebRtcHook.constructor | src/hooks/useWebRTC.ts:10-20 | initially no local stream, no remote streams, video and audio on, screen off, not connected, no peer connection |
| WebRtc.WebRtcHook.ToggleVideo | src/hooks/useWebRTC.ts:38-46 | the tracks and media state become those of Toggled for video |
| WebRtc.WebRtcHook.ToggleAudio | src/hooks/useWebRTC.ts:48-56 | the tracks and media state become those of Toggled for audio |
| WebRtc.WebRtcHook.GetLocalStream | src/hooks/useWebRTC.ts:22-36 | succeeds exactly when the capture is granted and a kind is requested; then a stream of new live tracks, audio first, becomes the local stream and earlier tracks are untouched; otherwise nothing changes |
| WebRtc.RedirectedSendsTrack | src/hooks/useWebRTC.ts:68-74 | after redirection, each mapped connection that had a video sender sends the new track from its first video sender; every other sender is unchanged |
| WebRtc.RedirectLastWins | src/hooks/useWebRTC.ts:113-119 | redirecting to the screen track and then to the new camera track equals redirecting to the camera track alone, so stopping a share restores each peer's video sender slot |
| WebRtc.RedirectIdempotent | src/hooks/useWebRTC.ts:68-74 | redirecting twice to the same video track equals redirecting once |
| WebRtc.DropFirstVideoEffect | src/hooks/useWebRTC.ts:77-81 | the first video track leaves the stream and stops; every other track stays; with no video track nothing changes |
| WebRtc.WebRtcHook.RedirectVideoSenders | src/hooks/useWebRTC.ts:68-74 | the loop over the connection map gives every mapped connection the redirected senders and leaves the others untouched |
| WebRtc.WebRtcHook.StartScreenShare | src/hooks/useWebRTC.ts:58-96 | a refused capture changes nothing; without a local stream only the capture is made; otherwise every mapped connection sends the screen track, the camera track is stopped and replaced in the local stream, and screen becomes true |
| WebRtc.WebRtcHook.OnTrackEnded | src/hooks/useWebRTC.ts:87-91 | a stopped track fires nothing; an ended track is no longer live and no other track changes; the screen track's end sets screen false and, if granted, installs a new stream of a live audio and a live video track; when refused, the stream stays |
| WebRtc.WebRtcHook.StopScreenShare | src/hooks/useWebRTC.ts:98-126 | nothing unless there is a local stream and screen is true; then the current video track is stopped and removed, and, if the camera is granted, a new camera track is added, sent by every mapped connection, and screen becomes false |
| WebRtc.WebRtcHook.CreatePeerConnection | src/hooks/useWebRTC.ts:128-166 | a new connection sends every local track and replaces any earlier entry for the peer id in the map |
| WebRtc.WebRtcHook.OnRemoteTrack | src/hooks/useWebRTC.ts:144-147 | the event's first stream becomes the remote stream of the connection's peer |
| WebRtc.WebRtcHook.OnConnectionStateChange | src/hooks/useWebRTC.ts:150-162 | connected sets isConnected; disconnected or failed clears it and deletes the peer id from both maps, whichever connection is now mapped to it |
| WebRtc.StaleConnectionFailureScenario | src/hooks/useWebRTC.ts:155-164 | when a replaced connection fails, its newer replacement, still new, is removed from the map |
| WebRtc.WebRtcHook.Cleanup | src/hooks/useWebRTC.ts:168-178 | every local track is stopped, every mapped connection is closed, both maps are emptied, there is no local stream, and isConnected is false |
| WebRtc.WebRtcHook.CleanupFor | src/hooks/useWebRTC.ts:168-178 | the closure made for a captured stream stops exactly that stream's tracks and clears the local stream only if it captured one; it closes the connections mapped now and empties both maps |
| WebRtc.WebRtcHook.StreamChangedEffect | src/hooks/useWebRTC.ts:180-182 | an unchanged stream runs nothing; after a change, the previous closure runs; if there was a previous stream, the new stream's closure runs too, ending with no local stream and the tracks of both streams stopped |
| Studio.FormatTime | src/components/Studio.tsx:26-31 | the timer text has at least eight characters, and exactly eight below 100 hours |
| Studio.DecimalRoundTrip | src/components/Studio.tsx:30 | a number's decimal text reads back as the number |
| Studio.FieldsDecompose | src/components/Studio.tsx:27-29 | minutes and seconds are below 60, and hours·3600 + minutes·60 + seconds is the input |
| Studio.FormatTimeShape | src/components/Studio.tsx:26-31 | below 100 hours the text has eight characters, colons at indices 2 and 5, and digits elsewhere |
| Studio.FormatTimeWideHours | src/components/Studio.tsx:30 | padding never truncates: from 100 hours on, the hour field is wider than two digits |
| Studio.PadKeepsText | src/components/Studio.tsx:30 | padding only adds leading zeros and keeps the padded text whole |
| Studio.FormatTimeRoundTrip | src/components/Studio.tsx:26-31 | the timer text parses back to the elapsed seconds, so different times never show the same text |
| Studio.Step | src/components/Studio.tsx:16-40 | every button press and every tick keeps the invariant that the timer is zero while not recording |
| Studio.RunKeepsIdle | src/components/Studio.tsx:16-40 | in every reachable state the timer is zero while not recording |
| Studio.TicksCount | src/components/Studio.tsx:16-24 | n ticks add n to the timer while recording and change nothing otherwise |
| Studio.StartTicksStop | src/components/Studio.tsx:33-40 | starting and then n ticks shows n; stopping returns to the idle state, timer cleared |
| Studio.DeviceTogglesFlipOnlyOwnFlag | src/components/Studio.tsx:190 | the camera, microphone and screen buttons each flip only their own flag, and two presses restore the state |
| Studio.RunKeepsVolume | src/components/Studio.tsx:14 | no modelled event changes the volume; the slider that sets it is not modelled |
| Studio.StudioScreen.constructor | src/components/Studio.tsx:9-14 | initially not recording, timer 0, video and audio on, screen off, volume 75 |
| Studio.StudioScreen.ToggleRecording | src/components/Studio.tsx:33-40 | stopping turns recording off and clears the timer; starting turns it on with the timer unchanged (zero) |
| Studio.StudioScreen.Tick | src/components/Studio.tsx:16-24 | a tick adds one second only while recording |
| Studio.StudioScreen.ToggleCamera | src/components/Studio.tsx:190 | the new state is the camera button's step |
| Studio.StudioScreen.ToggleMic | src/components/Studio.tsx:204 | the new state is the microphone button's step |
| Studio.StudioScreen.ToggleScreen | src/components/Studio.tsx:218 | the new state is the screen button's step |
| Studio.StudioScreen.TimerText | src/components/Studio.tsx:66 | the text shown parses back to the timer value, eight characters long below 100 hours |
| App.HandleLogin | src/App.tsx:10-13 | the user becomes the given name and the view dashboard |
| App.HandleLogout | src/App.tsx:15-18 | back to the initial state: landing view, no user |
| App.HandleStartRecording | src/App.tsx:20-22 | the view becomes studio; the user is unchanged |
| App.HandleBackToDashboard | src/App.tsx:24-26 | the view becomes dashboard; the user is unchanged |
| App.Screens | src/App.tsx:30-42 | the landing page shows exactly on the landing view, the studio exactly on the studio view, and the dashboard exactly on the dashboard view with a non-empty user name |
| App.AtMostOneScreen | src/App.tsx:30-42 | at most one screen is rendered, and none exactly on the dashboard view without a non-empty user name |
| App.EmptyLoginRendersNothing | src/App.tsx:10-13 | a login with the empty name renders no screen at all |
| App.OfferedRunsRenderOne | src/App.tsx:7-42 | from a consistent state, any run of actions the rendered screens offer keeps the user set exactly off the landing page and renders exactly one screen |
| App.Application.constructor | src/App.tsx:7-8 | initially the landing view with no user |
| App.Application.Login | src/App.tsx:10-13 | the fields become HandleLogin of the old state |
| App.Application.Logout | src/App.tsx:15-18 | the fields become HandleLogout of the old state |
| App.Application.StartRecording | src/App.tsx:20-22 | the fields become HandleStartRecording of the old state |
| App.Application.BackToDashboard | src/App.tsx:24-26 | the fields become HandleBackToDashboard of the old state |

## Left out

- Rendering, styling and the JSX of every component. The volume slider is
  kept only as a field that no modelled event changes.
- The hosted database client: network calls, authentication and the
  realtime channel's subscribe and unsubscribe. The tables are sequences
  and the user is an optional id. A change event is an explicit call
  (`OnParticipantsChange`).
- Network failures of any query. Only the failures the model can decide are
  modelled: no user, a duplicate key, not exactly one row, no current room.
- Rooms.RoomHook.LeaveRoom: the source ignores the result of its update, so
  an update failure is not modelled.
- Rooms.RoomHook.OnParticipantsChange: the `profiles(full_name, avatar_url)`
  join columns of the refetch are not modelled. The list holds participant
  rows only. Likewise Rooms.RoomHook.FetchRecordings: the nested `rooms`
  column that the `rooms!inner(host_id)` join adds to each returned row is
  not modelled. The join's filter is.
- Timestamps are naturals, not ISO-8601 text. The column defaults (`now()`,
  `is_active`, `max_participants`, `duration`, `status`, `is_host`) are
  parameters, because the migrations are not part of this model.
- `Math.random` is replaced by its printed text, an input. Floating-point
  printing is not modelled.
- Browser media APIs: the model takes the outcome of `getUserMedia` and
  `getDisplayMedia` as a flag. The audio track of the display capture is
  left out, because the source never uses it. `replaceTrack` is not awaited
  in the source. The model applies it at once.
- The ICE server configuration and all of `RTCPeerConnection` except its
  senders, its state and its two handlers. Offer and answer negotiation is
  not part of the source.
- React closure timing: handlers read the state as of their last render.
  The model reads the current fields.
- The real-time interval: a second is a `Tick` event.
- The screen-share round trip is proved on one connection
  (`WebRtc.RedirectLastWins`), not as a run of the hook's methods.
