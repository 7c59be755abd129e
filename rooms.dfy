/**
 * The room hook: room creation and joining by code, leaving, the recording
 * start/stop lifecycle, the two owner listings and the participants refetch
 * that follows a change event.
 *
 * The hosted database is a `Database` object: three tables and the
 * authenticated user, if any.  The hook is a `RoomHook` object whose fields
 * are the hook's state variables.  Keys the database would generate, the
 * current time and the text of Math.random().toString(36) are inputs.
 */
module Rooms {
  import opened Wrappers
  import opened Schema
  import Listing

  /** What the hook's actions throw. */
  datatype RoomError =
    | NotAuthenticated   // no signed-in user
    | DuplicateKey       // an insert whose key is already in the table
    | NotExactlyOneRow   // `.single()` received zero rows or several
    | NoActiveRoom       // recording started without a current room

  // --------------------------------------------------------------- room code

  /** A character of Number.prototype.toString(36). */
  predicate IsBase36Char(c: char) {
    '0' <= c <= '9' || 'a' <= c <= 'z'
  }

  /** The text of Math.random().toString(36) for a value in [0, 1). */
  predicate IsRandomText(t: string) {
    t == "0" || (|t| >= 2 && t[0] == '0' && t[1] == '.' && forall i :: 2 <= i < |t| ==> IsBase36Char(t[i]))
  }

  predicate IsRoomCodeChar(c: char) {
    '0' <= c <= '9' || 'A' <= c <= 'Z'
  }

  /** At most six characters, each a digit or an upper-case letter. */
  predicate IsRoomCode(code: string) {
    |code| <= 6 && forall i :: 0 <= i < |code| ==> IsRoomCodeChar(code[i])
  }

  function Min(a: nat, b: nat): nat {
    if a <= b then a else b
  }

  /** String.prototype.substring: both ends clamped to the length, then ordered. */
  function Substring(t: string, start: nat, end: nat): (r: string)
    ensures start <= end ==> |r| == Min(end, |t|) - Min(start, |t|)
    ensures start <= end ==> forall i :: 0 <= i < |r| ==> r[i] == t[start + i]
  {
    var a, b := Min(start, |t|), Min(end, |t|);
    if a <= b then t[a..b] else t[b..a]
  }

  /** String.prototype.toUpperCase on one character of the ASCII range. */
  function UpperChar(c: char): (u: char)
    ensures 'a' <= c <= 'z' ==> 'A' <= u <= 'Z'
    ensures !('a' <= c <= 'z') ==> u == c
  {
    if 'a' <= c <= 'z' then (c as int - 32) as char else c
  }

  function ToUpper(t: string): (r: string)
    ensures |r| == |t|
    ensures forall i :: 0 <= i < |t| ==> r[i] == UpperChar(t[i])
  {
    seq(|t|, i requires 0 <= i < |t| => UpperChar(t[i]))
  }

  /** `Math.random().toString(36).substring(2, 8).toUpperCase()`. */
  function GenerateRoomCode(randomText: string): (code: string)
    ensures |code| <= 6
    ensures |randomText| >= 8 ==> |code| == 6
    ensures IsRandomText(randomText) ==> IsRoomCode(code)
  {
    var digits := Substring(randomText, 2, 8);
    assert IsRandomText(randomText) ==> forall i :: 0 <= i < |digits| ==> IsBase36Char(digits[i]) by {
      if IsRandomText(randomText) {
        forall i | 0 <= i < |digits| ensures IsBase36Char(digits[i]) {
          assert digits[i] == randomText[2 + i];
        }
      }
    }
    ToUpper(digits)
  }

  /** 0.5 prints as "0.i": the code is one character long, not six. */
  lemma ShortRandomTextGivesShortCode()
    ensures IsRandomText("0.i") && GenerateRoomCode("0.i") == "I"
  {
  }

  // ---------------------------------------------------------- key uniqueness

  function KeySet<T>(s: seq<T>, key: T -> Uuid): (r: set<Uuid>)
    ensures forall i :: 0 <= i < |s| ==> key(s[i]) in r
    ensures forall k :: k in r ==> exists i :: 0 <= i < |s| && key(s[i]) == k
  {
    set i | 0 <= i < |s| :: key(s[i])
  }

  ghost predicate UniqueKeys<T>(s: seq<T>, key: T -> Uuid) {
    forall i, j :: 0 <= i < j < |s| ==> key(s[i]) != key(s[j])
  }

  function RoomId(r: RoomRow): Uuid { r.id }
  function ParticipantId(p: ParticipantRow): Uuid { p.id }
  function RecordingId(r: RecordingRow): Uuid { r.id }

  lemma AppendFreshKeepsUnique<T>(s: seq<T>, key: T -> Uuid, x: T)
    requires UniqueKeys(s, key) && key(x) !in KeySet(s, key)
    ensures UniqueKeys(s + [x], key)
  {
    forall i, j | 0 <= i < j < |s + [x]| ensures key((s + [x])[i]) != key((s + [x])[j]) {
      if j == |s| {
        assert key(s[i]) in KeySet(s, key);
      }
    }
  }

  // ------------------------------------------------------------------ leave

  /** The rows `.eq('room_id', r).eq('user_id', u).is('left_at', null)` selects. */
  predicate Leaving(p: ParticipantRow, roomId: Uuid, userId: Uuid) {
    p.room_id == roomId && p.user_id == userId && Present(p)
  }

  function LeaveUpdate(now: Timestamp): ParticipantUpdate {
    ParticipantUpdate(None, None, None, None, Some(Some(now)), None)
  }

  function MarkLeft(p: ParticipantRow, roomId: Uuid, userId: Uuid, now: Timestamp): ParticipantRow {
    if Leaving(p, roomId, userId) then ApplyParticipantUpdate(p, LeaveUpdate(now)) else p
  }

  /** The participants table after leaveRoom's update. */
  function LeftAfter(rows: seq<ParticipantRow>, roomId: Uuid, userId: Uuid, now: Timestamp): (r: seq<ParticipantRow>)
    ensures |r| == |rows|
  {
    seq(|rows|, i requires 0 <= i < |rows| => MarkLeft(rows[i], roomId, userId, now))
  }

  /** Only the selected rows change, and of them only left_at, which becomes now. */
  lemma LeaveChangesOnlyLeavingRows(rows: seq<ParticipantRow>, roomId: Uuid, userId: Uuid, now: Timestamp, i: nat)
    requires i < |rows|
    ensures var r := LeftAfter(rows, roomId, userId, now);
      && (Leaving(rows[i], roomId, userId) ==> r[i] == rows[i].(left_at := Some(now)))
      && (!Leaving(rows[i], roomId, userId) ==> r[i] == rows[i])
  {
  }

  /** Afterwards the user has no present row in that room; everyone else's presence is as before. */
  lemma LeaveEndsPresence(rows: seq<ParticipantRow>, roomId: Uuid, userId: Uuid, now: Timestamp)
    ensures var r := LeftAfter(rows, roomId, userId, now);
      forall i :: 0 <= i < |r| ==>
        && r[i].id == rows[i].id
        && (r[i].room_id == roomId && r[i].user_id == userId ==> !Present(r[i]))
        && (r[i].room_id != roomId || r[i].user_id != userId ==> r[i] == rows[i])
  {
  }

  /** Rows present in a room. */
  function PresentIn(roomId: Uuid): ParticipantRow -> bool {
    (p: ParticipantRow) => p.room_id == roomId && Present(p)
  }

  /** `select ... eq('room_id', r).is('left_at', null)`. */
  function PresentParticipants(rows: seq<ParticipantRow>, roomId: Uuid): (r: seq<ParticipantRow>)
    ensures forall x :: x in r <==> x in rows && x.room_id == roomId && Present(x)
    ensures forall x :: multiset(r)[x] == if x.room_id == roomId && Present(x) then multiset(rows)[x] else 0
  {
    Listing.Filter(rows, PresentIn(roomId))
  }

  lemma LeftAfterAppend(rows: seq<ParticipantRow>, p: ParticipantRow, roomId: Uuid, userId: Uuid, now: Timestamp)
    ensures LeftAfter(rows + [p], roomId, userId, now)
         == LeftAfter(rows, roomId, userId, now) + [MarkLeft(p, roomId, userId, now)]
  {
  }

  lemma LeftAfterNoLeaving(rows: seq<ParticipantRow>, roomId: Uuid, userId: Uuid, now: Timestamp)
    requires forall x :: x in rows ==> !Leaving(x, roomId, userId)
    ensures LeftAfter(rows, roomId, userId, now) == rows
  {
  }

  /**
   * Joining and then leaving restores the room's present participants,
   * provided the user was not already present there: the source makes no
   * duplicate-presence check, and leaving ends every present row of the user.
   */
  lemma {:induction false} JoinThenLeaveRestoresPresence(
    rows: seq<ParticipantRow>, joined: ParticipantRow, roomId: Uuid, userId: Uuid, now: Timestamp)
    requires forall x :: x in rows ==> !Leaving(x, roomId, userId)
    requires joined.room_id == roomId && joined.user_id == userId && Present(joined)
    ensures PresentParticipants(LeftAfter(rows + [joined], roomId, userId, now), roomId)
         == PresentParticipants(rows, roomId)
  {
    LeftAfterAppend(rows, joined, roomId, userId, now);
    LeftAfterNoLeaving(rows, roomId, userId, now);
    var marked := MarkLeft(joined, roomId, userId, now);
    assert !PresentIn(roomId)(marked);
    Listing.FilterAppend(rows, [marked], PresentIn(roomId));
    assert Listing.Filter([marked], PresentIn(roomId)) == [];
  }

  /** A second join while already present is undone, with the first, by a single leave. */
  lemma RejoinThenLeaveEndsBothRows(first: ParticipantRow, second: ParticipantRow, now: Timestamp)
    requires first.room_id == second.room_id && first.user_id == second.user_id
    requires Present(first) && Present(second)
    ensures PresentParticipants(LeftAfter([first, second], first.room_id, first.user_id, now), first.room_id) == []
  {
    var r := LeftAfter([first, second], first.room_id, first.user_id, now);
    assert r == [r[0]] + [r[1]];
    Listing.FilterAppend([r[0]], [r[1]], PresentIn(first.room_id));
  }

  // ------------------------------------------------------------------ stop

  function StopUpdate(duration: int, now: Timestamp): RecordingUpdate {
    RecordingUpdate(None, None, None, Some(duration), None, None, Some(Processing), Some(now))
  }

  function MarkProcessing(rec: RecordingRow, recordingId: Uuid, duration: int, now: Timestamp): (r: RecordingRow)
    ensures rec.id == recordingId ==> r.status == Processing && r.duration == duration && r.updated_at == now
    ensures rec.id == recordingId ==> r == rec.(status := Processing, duration := duration, updated_at := now)
    ensures rec.id != recordingId ==> r == rec
  {
    if rec.id == recordingId then ApplyRecordingUpdate(rec, StopUpdate(duration, now)) else rec
  }

  /** The recordings table after stopRecording's update, whatever the row's prior status. */
  function StoppedAfter(rows: seq<RecordingRow>, recordingId: Uuid, duration: int, now: Timestamp): (r: seq<RecordingRow>)
    ensures |r| == |rows|
    ensures recordingId !in KeySet(rows, RecordingId) ==> r == rows
  {
    seq(|rows|, i requires 0 <= i < |rows| => MarkProcessing(rows[i], recordingId, duration, now))
  }

  // -------------------------------------------------------------- listings

  function HostedBy(userId: Uuid): RoomRow -> bool {
    (r: RoomRow) => r.host_id == userId
  }

  function RoomCreated(r: RoomRow): Timestamp { r.created_at }
  function RecordingCreated(r: RecordingRow): Timestamp { r.created_at }

  /** fetchUserRooms: the caller's rooms, newest first. */
  function UserRooms(rows: seq<RoomRow>, userId: Uuid): (r: seq<RoomRow>)
    ensures forall x :: x in r <==> x in rows && x.host_id == userId
    ensures forall x :: multiset(r)[x] == if x.host_id == userId then multiset(rows)[x] else 0
    ensures forall i, j :: 0 <= i < j < |r| ==> r[i].created_at >= r[j].created_at
  {
    var own := Listing.Filter(rows, HostedBy(userId));
    var sorted := Listing.SortNewestFirst(own, RoomCreated);
    assert forall x :: x in sorted <==> x in own by {
      forall x ensures x in sorted <==> x in own { Listing.SortKeepsMembers(own, RoomCreated, x); }
    }
    sorted
  }

  /** The inner join `rooms!inner(host_id)` with `rooms.host_id = caller`. */
  predicate InRoomHostedBy(rooms: seq<RoomRow>, roomId: Uuid, userId: Uuid) {
    exists r :: r in rooms && r.id == roomId && r.host_id == userId
  }

  function RecordingOfHost(rooms: seq<RoomRow>, userId: Uuid): RecordingRow -> bool {
    (rec: RecordingRow) => InRoomHostedBy(rooms, rec.room_id, userId)
  }

  /** fetchRecordings: recordings of rooms the caller hosts, newest first. */
  function UserRecordings(recordings: seq<RecordingRow>, rooms: seq<RoomRow>, userId: Uuid): (r: seq<RecordingRow>)
    ensures forall x :: x in r <==> x in recordings && InRoomHostedBy(rooms, x.room_id, userId)
    ensures forall x :: multiset(r)[x] == if InRoomHostedBy(rooms, x.room_id, userId) then multiset(recordings)[x] else 0
    ensures forall i, j :: 0 <= i < j < |r| ==> r[i].created_at >= r[j].created_at
  {
    var own := Listing.Filter(recordings, RecordingOfHost(rooms, userId));
    var sorted := Listing.SortNewestFirst(own, RecordingCreated);
    assert forall x :: x in sorted <==> x in own by {
      forall x ensures x in sorted <==> x in own { Listing.SortKeepsMembers(own, RecordingCreated, x); }
    }
    sorted
  }

  // ---------------------------------------------------------------- database

  /** The hosted database as the hook sees it: three tables and the signed-in user. */
  class Database {
    var user: Option<Uuid>
    var rooms: seq<RoomRow>
    var participants: seq<ParticipantRow>
    var recordings: seq<RecordingRow>
    const defaults: ColumnDefaults

    /** Every table's primary key is unique. */
    ghost predicate Valid()
      reads this
    {
      && UniqueKeys(rooms, RoomId)
      && UniqueKeys(participants, ParticipantId)
      && UniqueKeys(recordings, RecordingId)
    }

    constructor (defaults: ColumnDefaults, user: Option<Uuid>)
      ensures Valid()
      ensures this.defaults == defaults && this.user == user
      ensures rooms == [] && participants == [] && recordings == []
    {
      this.defaults := defaults;
      this.user := user;
      rooms, participants, recordings := [], [], [];
    }

    /** `.from('rooms').insert(ins).select().single()`; the key newId is generated unless given. */
    method InsertRoom(ins: RoomInsert, newId: Uuid, now: Timestamp) returns (r: Result<RoomRow, RoomError>)
      requires Valid()
      modifies this`rooms
      ensures Valid()
      ensures r.Ok? <==> ins.id.GetOr(newId) !in KeySet(old(rooms), RoomId)
      ensures r.Ok? ==> r.value == RoomFromInsert(ins, newId, now, defaults) && rooms == old(rooms) + [r.value]
      ensures r.Err? ==> r.error == DuplicateKey && rooms == old(rooms)
    {
      var row := RoomFromInsert(ins, newId, now, defaults);
      if row.id in KeySet(rooms, RoomId) {
        return Err(DuplicateKey);
      }
      AppendFreshKeepsUnique(rooms, RoomId, row);
      rooms := rooms + [row];
      r := Ok(row);
    }

    method InsertParticipant(ins: ParticipantInsert, newId: Uuid, now: Timestamp) returns (r: Result<ParticipantRow, RoomError>)
      requires Valid()
      modifies this`participants
      ensures Valid()
      ensures r.Ok? <==> ins.id.GetOr(newId) !in KeySet(old(participants), ParticipantId)
      ensures r.Ok? ==> (r.value == ParticipantFromInsert(ins, newId, now, defaults)
                         && participants == old(participants) + [r.value])
      ensures r.Err? ==> r.error == DuplicateKey && participants == old(participants)
    {
      var row := ParticipantFromInsert(ins, newId, now, defaults);
      if row.id in KeySet(participants, ParticipantId) {
        return Err(DuplicateKey);
      }
      AppendFreshKeepsUnique(participants, ParticipantId, row);
      participants := participants + [row];
      r := Ok(row);
    }

    method InsertRecording(ins: RecordingInsert, newId: Uuid, now: Timestamp) returns (r: Result<RecordingRow, RoomError>)
      requires Valid()
      modifies this`recordings
      ensures Valid()
      ensures r.Ok? <==> ins.id.GetOr(newId) !in KeySet(old(recordings), RecordingId)
      ensures r.Ok? ==> (r.value == RecordingFromInsert(ins, newId, now, defaults)
                         && recordings == old(recordings) + [r.value])
      ensures r.Err? ==> r.error == DuplicateKey && recordings == old(recordings)
    {
      var row := RecordingFromInsert(ins, newId, now, defaults);
      if row.id in KeySet(recordings, RecordingId) {
        return Err(DuplicateKey);
      }
      AppendFreshKeepsUnique(recordings, RecordingId, row);
      recordings := recordings + [row];
      r := Ok(row);
    }

    /** `.update({ left_at: now }).eq('room_id', ..).eq('user_id', ..).is('left_at', null)`, row by row. */
    method UpdateLeft(roomId: Uuid, userId: Uuid, now: Timestamp)
      requires Valid()
      modifies this`participants
      ensures Valid()
      ensures participants == LeftAfter(old(participants), roomId, userId, now)
    {
      var i := 0;
      while i < |participants|
        invariant 0 <= i <= |participants| == |old(participants)|
        invariant forall k :: 0 <= k < i ==> participants[k] == MarkLeft(old(participants)[k], roomId, userId, now)
        invariant forall k :: i <= k < |participants| ==> participants[k] == old(participants)[k]
      {
        if Leaving(participants[i], roomId, userId) {
          participants := participants[i := ApplyParticipantUpdate(participants[i], LeaveUpdate(now))];
        }
        i := i + 1;
      }
      assert participants == LeftAfter(old(participants), roomId, userId, now);
    }

    /**
     * `.update({ status: 'processing', duration, updated_at }).eq('id', id).select().single()`:
     * every row with that key is updated, and the call succeeds when exactly one was.
     */
    method UpdateStopped(recordingId: Uuid, duration: int, now: Timestamp) returns (r: Result<RecordingRow, RoomError>)
      requires Valid()
      modifies this`recordings
      ensures Valid()
      ensures recordings == StoppedAfter(old(recordings), recordingId, duration, now)
      ensures r.Ok? <==> recordingId in KeySet(old(recordings), RecordingId)
      ensures r.Ok? ==> (r.value in recordings && r.value.id == recordingId
                         && r.value.status == Processing && r.value.duration == duration)
      ensures r.Err? ==> r.error == NotExactlyOneRow && recordings == old(recordings)
    {
      // Keys are unique, so `.single()` can only see zero rows or one.
      var hit: Option<nat> := None;
      var i := 0;
      while i < |recordings|
        invariant 0 <= i <= |recordings| == |old(recordings)|
        invariant forall k :: 0 <= k < i ==> recordings[k] == MarkProcessing(old(recordings)[k], recordingId, duration, now)
        invariant forall k :: i <= k < |recordings| ==> recordings[k] == old(recordings)[k]
        invariant hit.None? <==> forall k :: 0 <= k < i ==> old(recordings)[k].id != recordingId
        invariant hit.Some? ==> hit.value < i && old(recordings)[hit.value].id == recordingId
      {
        if recordings[i].id == recordingId {
          hit := Some(i);
          recordings := recordings[i := ApplyRecordingUpdate(recordings[i], StopUpdate(duration, now))];
        }
        i := i + 1;
      }
      assert recordings == StoppedAfter(old(recordings), recordingId, duration, now);
      if hit.Some? {
        assert recordingId in KeySet(old(recordings), RecordingId) by {
          assert RecordingId(old(recordings)[hit.value]) == recordingId;
        }
        r := Ok(recordings[hit.value]);
      } else {
        r := Err(NotExactlyOneRow);
      }
    }
  }

  // -------------------------------------------------------------------- hook

  /** The state of the room hook, over one database. */
  class RoomHook {
    const db: Database
    var rooms: seq<RoomRow>
    var currentRoom: Option<RoomRow>
    var recordings: seq<RecordingRow>
    var participants: seq<ParticipantRow>
    var loading: bool

    constructor (db: Database)
      ensures this.db == db
      ensures rooms == [] && currentRoom == None && recordings == [] && participants == [] && !loading
    {
      this.db := db;
      rooms, currentRoom, recordings, participants, loading := [], None, [], [], false;
    }

    /**
     * createRoom(name, description): fails with NotAuthenticated when nobody
     * is signed in; otherwise inserts one room hosted by the caller, active,
     * with the generated code, and makes it the current room.
     */
    method CreateRoom(name: string, description: Option<string>, randomText: string, newId: Uuid, now: Timestamp)
      returns (r: Result<RoomRow, RoomError>)
      requires db.Valid()
      modifies this`currentRoom, this`loading, db`rooms
      ensures db.Valid() && !loading
      ensures old(db.user).None? ==> r == Err(NotAuthenticated)
      ensures r.Ok? <==> old(db.user).Some? && newId !in KeySet(old(db.rooms), RoomId)
      ensures r.Ok? ==> && r.value.host_id == old(db.user).value
                        && r.value.is_active
                        && r.value.room_code == GenerateRoomCode(randomText)
                        && r.value.name == name && r.value.description == description
                        && r.value.id == newId && r.value.created_at == now
                        && db.rooms == old(db.rooms) + [r.value]
                        && currentRoom == Some(r.value)
      ensures r.Err? ==> db.rooms == old(db.rooms) && currentRoom == old(currentRoom)
    {
      loading := true;
      var roomCode := GenerateRoomCode(randomText);
      if db.user.None? {
        loading := false;
        return Err(NotAuthenticated);
      }
      var ins := RoomInsert(None, name, if description.Some? then Some(description) else None,
                            db.user.value, roomCode, Some(true), None, None, None);
      r := db.InsertRoom(ins, newId, now);
      if r.Ok? {
        currentRoom := Some(r.value);
      }
      loading := false;
    }

    /**
     * joinRoom(code): the one active room with that code is looked up; the
     * caller is inserted as a participant, host exactly when they host the
     * room, and the room becomes the current room.
     */
    method JoinRoom(code: string, newId: Uuid, now: Timestamp) returns (r: Result<RoomRow, RoomError>)
      requires db.Valid()
      modifies this`currentRoom, this`loading, db`participants
      ensures db.Valid() && !loading
      ensures var matches := Listing.Filter(old(db.rooms), ActiveWithCode(code));
        && (old(db.user).None? ==> r == Err(NotAuthenticated))
        && (old(db.user).Some? && |matches| != 1 ==> r == Err(NotExactlyOneRow))
        && (r.Ok? <==> old(db.user).Some? && |matches| == 1 && newId !in KeySet(old(db.participants), ParticipantId))
        && (r.Ok? ==> r.value == matches[0])
      ensures r.Ok? ==> && r.value in db.rooms && r.value.room_code == code && r.value.is_active
                        && currentRoom == Some(r.value)
                        && |db.participants| == |old(db.participants)| + 1
                        && db.participants[..|old(db.participants)|] == old(db.participants)
                        && var p := db.participants[|old(db.participants)|];
                           && p.id == newId && p.room_id == r.value.id && p.user_id == old(db.user).value
                           && p.is_host == (r.value.host_id == old(db.user).value)
                           && p.joined_at == now && Present(p)
      ensures r.Err? ==> db.participants == old(db.participants) && currentRoom == old(currentRoom)
    {
      loading := true;
      if db.user.None? {
        loading := false;
        return Err(NotAuthenticated);
      }
      var userId := db.user.value;
      var matches := Listing.Filter(db.rooms, ActiveWithCode(code));
      if |matches| != 1 {
        loading := false;
        return Err(NotExactlyOneRow);
      }
      var room := matches[0];
      assert room in matches;
      var ins := ParticipantInsert(None, room.id, userId, None, None, Some(room.host_id == userId));
      var p := db.InsertParticipant(ins, newId, now);
      if p.Err? {
        loading := false;
        return Err(p.error);
      }
      currentRoom := Some(room);
      r := Ok(room);
      loading := false;
    }

    /**
     * leaveRoom(): nothing without a current room or a signed-in user;
     * otherwise the caller's present rows in the current room get left_at,
     * and the current room and participant list are cleared.
     */
    method LeaveRoom(now: Timestamp)
      requires db.Valid()
      modifies this`currentRoom, this`participants, db`participants
      ensures db.Valid()
      ensures old(currentRoom).None? || old(db.user).None? ==>
        && db.participants == old(db.participants)
        && currentRoom == old(currentRoom) && participants == old(participants)
      ensures old(currentRoom).Some? && old(db.user).Some? ==>
        && db.participants == LeftAfter(old(db.participants), old(currentRoom).value.id, old(db.user).value, now)
        && currentRoom == None && participants == []
    {
      if currentRoom.None? {
        return;
      }
      if db.user.None? {
        return;
      }
      db.UpdateLeft(currentRoom.value.id, db.user.value, now);
      currentRoom := None;
      participants := [];
    }

    /** startRecording(title): needs a current room; inserts one recording with status recording. */
    method StartRecording(title: string, newId: Uuid, now: Timestamp) returns (r: Result<RecordingRow, RoomError>)
      requires db.Valid()
      modifies db`recordings
      ensures db.Valid()
      ensures currentRoom.None? ==> r == Err(NoActiveRoom)
      ensures r.Ok? <==> currentRoom.Some? && newId !in KeySet(old(db.recordings), RecordingId)
      ensures r.Ok? ==> && r.value.room_id == currentRoom.value.id && r.value.title == title
                        && r.value.status == Recording && r.value.id == newId
                        && db.recordings == old(db.recordings) + [r.value]
      ensures r.Err? ==> db.recordings == old(db.recordings)
    {
      if currentRoom.None? {
        return Err(NoActiveRoom);
      }
      var ins := RecordingInsert(None, currentRoom.value.id, title, None, None, None, Some(Recording), None, None);
      r := db.InsertRecording(ins, newId, now);
    }

    /** stopRecording(id, duration): the row with that key becomes processing with that duration. */
    method StopRecording(recordingId: Uuid, duration: int, now: Timestamp) returns (r: Result<RecordingRow, RoomError>)
      requires db.Valid()
      modifies db`recordings
      ensures db.Valid()
      ensures db.recordings == StoppedAfter(old(db.recordings), recordingId, duration, now)
      ensures r.Ok? <==> recordingId in KeySet(old(db.recordings), RecordingId)
      ensures r.Ok? ==> (r.value in db.recordings && r.value.id == recordingId
                         && r.value.status == Processing && r.value.duration == duration)
      ensures r.Err? ==> r.error == NotExactlyOneRow && db.recordings == old(db.recordings)
    {
      r := db.UpdateStopped(recordingId, duration, now);
    }

    /** fetchUserRooms(): the caller's rooms, newest first; nothing without a signed-in user. */
    method FetchUserRooms()
      modifies this`rooms
      ensures db.user.None? ==> rooms == old(rooms)
      ensures db.user.Some? ==> rooms == UserRooms(db.rooms, db.user.value)
    {
      if db.user.Some? {
        rooms := UserRooms(db.rooms, db.user.value);
      }
    }

    /** fetchRecordings(): recordings of the caller's rooms, newest first. */
    method FetchRecordings()
      modifies this`recordings
      ensures db.user.None? ==> recordings == old(recordings)
      ensures db.user.Some? ==> recordings == UserRecordings(db.recordings, db.rooms, db.user.value)
    {
      if db.user.Some? {
        recordings := UserRecordings(db.recordings, db.rooms, db.user.value);
      }
    }

    /** A change event on the current room's participants: refetch the present ones. */
    method OnParticipantsChange()
      modifies this`participants
      ensures currentRoom.None? ==> participants == old(participants)
      ensures currentRoom.Some? ==> participants == PresentParticipants(db.participants, currentRoom.value.id)
    {
      if currentRoom.Some? {
        participants := PresentParticipants(db.participants, currentRoom.value.id);
      }
    }
  }

  /** The rows `.eq('room_code', code).eq('is_active', true)` selects. */
  function ActiveWithCode(code: string): RoomRow -> bool {
    (r: RoomRow) => r.room_code == code && r.is_active
  }
}
