/**
 * The record shapes of the four database tables (profiles, rooms,
 * recordings, participants): the row as stored, the insert shape, in which
 * columns with a database default may be omitted, and the update shape, in
 * which every column may be omitted.
 *
 * Encoding: an omittable column of type T is an Option<T> (None = omitted);
 * a nullable column is an Option<T> (None = null); a column that is both is
 * an Option<Option<T>>.  Timestamps are naturals: the store keeps ISO-8601
 * text, whose order is the order of the instants.
 */
module Schema {
  import opened Wrappers

  type Timestamp = nat
  type Uuid = string

  /** The recording status column admits exactly four values. */
  datatype RecordingStatus = Recording | Processing | Completed | Failed

  function StatusText(s: RecordingStatus): string {
    match s
    case Recording => "recording"
    case Processing => "processing"
    case Completed => "completed"
    case Failed => "failed"
  }

  /** Reading the status column accepts the four literals and nothing else. */
  function ParseStatus(t: string): (r: Option<RecordingStatus>)
    ensures r.Some? ==> StatusText(r.value) == t
    ensures r.None? ==> forall s: RecordingStatus :: StatusText(s) != t
  {
    if t == "recording" then Some(Recording)
    else if t == "processing" then Some(Processing)
    else if t == "completed" then Some(Completed)
    else if t == "failed" then Some(Failed)
    else None
  }

  lemma StatusRoundTrip(s: RecordingStatus)
    ensures ParseStatus(StatusText(s)) == Some(s)
  {
  }

  /** The values the database supplies for omitted columns that have a default. */
  datatype ColumnDefaults = ColumnDefaults(
    roomIsActive: bool,
    roomMaxParticipants: int,
    recordingDuration: int,
    recordingStatus: RecordingStatus,
    participantIsHost: bool)

  /** Field-wise override: the later update wins where it sets the column. */
  function Override<T>(earlier: Option<T>, later: Option<T>): (r: Option<T>)
    ensures later.Some? ==> r == later
    ensures later.None? ==> r == earlier
  {
    if later.Some? then later else earlier
  }

  // ---------------------------------------------------------------- profiles

  datatype ProfileRow = ProfileRow(
    id: Uuid, email: string, full_name: string, avatar_url: Option<string>,
    created_at: Timestamp, updated_at: Timestamp)

  datatype ProfileInsert = ProfileInsert(
    id: Uuid, email: string, full_name: string, avatar_url: Option<Option<string>>,
    created_at: Option<Timestamp>, updated_at: Option<Timestamp>)

  /** There is no created_at column in the update shape. */
  datatype ProfileUpdate = ProfileUpdate(
    id: Option<Uuid>, email: Option<string>, full_name: Option<string>,
    avatar_url: Option<Option<string>>, updated_at: Option<Timestamp>)

  function ProfileFromInsert(ins: ProfileInsert, now: Timestamp): (r: ProfileRow)
    ensures r.id == ins.id && r.email == ins.email && r.full_name == ins.full_name
    ensures r.avatar_url == ins.avatar_url.GetOr(None)
    ensures r.created_at == ins.created_at.GetOr(now) && r.updated_at == ins.updated_at.GetOr(now)
  {
    ProfileRow(ins.id, ins.email, ins.full_name, ins.avatar_url.GetOr(None),
               ins.created_at.GetOr(now), ins.updated_at.GetOr(now))
  }

  function ProfileToInsert(row: ProfileRow): ProfileInsert {
    ProfileInsert(row.id, row.email, row.full_name, Some(row.avatar_url),
                  Some(row.created_at), Some(row.updated_at))
  }

  lemma ProfileInsertRoundTrip(row: ProfileRow, now: Timestamp)
    ensures ProfileFromInsert(ProfileToInsert(row), now) == row
  {
  }

  function ApplyProfileUpdate(row: ProfileRow, u: ProfileUpdate): (r: ProfileRow)
    ensures r.created_at == row.created_at
    ensures u == ProfileUpdate(None, None, None, None, None) ==> r == row
  {
    ProfileRow(u.id.GetOr(row.id), u.email.GetOr(row.email), u.full_name.GetOr(row.full_name),
               u.avatar_url.GetOr(row.avatar_url), row.created_at, u.updated_at.GetOr(row.updated_at))
  }

  function MergeProfileUpdates(u1: ProfileUpdate, u2: ProfileUpdate): ProfileUpdate {
    ProfileUpdate(Override(u1.id, u2.id), Override(u1.email, u2.email),
                  Override(u1.full_name, u2.full_name), Override(u1.avatar_url, u2.avatar_url),
                  Override(u1.updated_at, u2.updated_at))
  }

  /** Two successive updates are the one merged update. */
  lemma ProfileUpdatesCompose(row: ProfileRow, u1: ProfileUpdate, u2: ProfileUpdate)
    ensures ApplyProfileUpdate(ApplyProfileUpdate(row, u1), u2)
         == ApplyProfileUpdate(row, MergeProfileUpdates(u1, u2))
  {
  }

  // ------------------------------------------------------------------- rooms

  datatype RoomRow = RoomRow(
    id: Uuid, name: string, description: Option<string>, host_id: Uuid,
    room_code: string, is_active: bool, max_participants: int,
    created_at: Timestamp, updated_at: Timestamp)

  datatype RoomInsert = RoomInsert(
    id: Option<Uuid>, name: string, description: Option<Option<string>>, host_id: Uuid,
    room_code: string, is_active: Option<bool>, max_participants: Option<int>,
    created_at: Option<Timestamp>, updated_at: Option<Timestamp>)

  /** There is no created_at column in the update shape. */
  datatype RoomUpdate = RoomUpdate(
    id: Option<Uuid>, name: Option<string>, description: Option<Option<string>>,
    host_id: Option<Uuid>, room_code: Option<string>, is_active: Option<bool>,
    max_participants: Option<int>, updated_at: Option<Timestamp>)

  /** The row the database stores for an insert; newId is the generated key. */
  function RoomFromInsert(ins: RoomInsert, newId: Uuid, now: Timestamp, d: ColumnDefaults): (r: RoomRow)
    ensures r.name == ins.name && r.host_id == ins.host_id && r.room_code == ins.room_code
    ensures r.id == ins.id.GetOr(newId) && r.description == ins.description.GetOr(None)
    ensures r.is_active == ins.is_active.GetOr(d.roomIsActive)
    ensures r.max_participants == ins.max_participants.GetOr(d.roomMaxParticipants)
    ensures r.created_at == ins.created_at.GetOr(now) && r.updated_at == ins.updated_at.GetOr(now)
  {
    RoomRow(ins.id.GetOr(newId), ins.name, ins.description.GetOr(None), ins.host_id,
            ins.room_code, ins.is_active.GetOr(d.roomIsActive),
            ins.max_participants.GetOr(d.roomMaxParticipants),
            ins.created_at.GetOr(now), ins.updated_at.GetOr(now))
  }

  function RoomToInsert(row: RoomRow): RoomInsert {
    RoomInsert(Some(row.id), row.name, Some(row.description), row.host_id, row.room_code,
               Some(row.is_active), Some(row.max_participants),
               Some(row.created_at), Some(row.updated_at))
  }

  lemma RoomInsertRoundTrip(row: RoomRow, newId: Uuid, now: Timestamp, d: ColumnDefaults)
    ensures RoomFromInsert(RoomToInsert(row), newId, now, d) == row
  {
  }

  function ApplyRoomUpdate(row: RoomRow, u: RoomUpdate): (r: RoomRow)
    ensures r.created_at == row.created_at
    ensures u == RoomUpdate(None, None, None, None, None, None, None, None) ==> r == row
  {
    RoomRow(u.id.GetOr(row.id), u.name.GetOr(row.name), u.description.GetOr(row.description),
            u.host_id.GetOr(row.host_id), u.room_code.GetOr(row.room_code),
            u.is_active.GetOr(row.is_active), u.max_participants.GetOr(row.max_participants),
            row.created_at, u.updated_at.GetOr(row.updated_at))
  }

  function MergeRoomUpdates(u1: RoomUpdate, u2: RoomUpdate): RoomUpdate {
    RoomUpdate(Override(u1.id, u2.id), Override(u1.name, u2.name),
               Override(u1.description, u2.description), Override(u1.host_id, u2.host_id),
               Override(u1.room_code, u2.room_code), Override(u1.is_active, u2.is_active),
               Override(u1.max_participants, u2.max_participants),
               Override(u1.updated_at, u2.updated_at))
  }

  lemma RoomUpdatesCompose(row: RoomRow, u1: RoomUpdate, u2: RoomUpdate)
    ensures ApplyRoomUpdate(ApplyRoomUpdate(row, u1), u2)
         == ApplyRoomUpdate(row, MergeRoomUpdates(u1, u2))
  {
  }

  // -------------------------------------------------------------- recordings

  datatype RecordingRow = RecordingRow(
    id: Uuid, room_id: Uuid, title: string, duration: int,
    file_url: Option<string>, thumbnail_url: Option<string>, status: RecordingStatus,
    created_at: Timestamp, updated_at: Timestamp)

  datatype RecordingInsert = RecordingInsert(
    id: Option<Uuid>, room_id: Uuid, title: string, duration: Option<int>,
    file_url: Option<Option<string>>, thumbnail_url: Option<Option<string>>,
    status: Option<RecordingStatus>, created_at: Option<Timestamp>, updated_at: Option<Timestamp>)

  /** There is no created_at column in the update shape. */
  datatype RecordingUpdate = RecordingUpdate(
    id: Option<Uuid>, room_id: Option<Uuid>, title: Option<string>, duration: Option<int>,
    file_url: Option<Option<string>>, thumbnail_url: Option<Option<string>>,
    status: Option<RecordingStatus>, updated_at: Option<Timestamp>)

  function RecordingFromInsert(ins: RecordingInsert, newId: Uuid, now: Timestamp, d: ColumnDefaults): (r: RecordingRow)
    ensures r.room_id == ins.room_id && r.title == ins.title && r.id == ins.id.GetOr(newId)
    ensures r.duration == ins.duration.GetOr(d.recordingDuration)
    ensures r.status == ins.status.GetOr(d.recordingStatus)
    ensures r.file_url == ins.file_url.GetOr(None) && r.thumbnail_url == ins.thumbnail_url.GetOr(None)
    ensures r.created_at == ins.created_at.GetOr(now) && r.updated_at == ins.updated_at.GetOr(now)
  {
    RecordingRow(ins.id.GetOr(newId), ins.room_id, ins.title, ins.duration.GetOr(d.recordingDuration),
                 ins.file_url.GetOr(None), ins.thumbnail_url.GetOr(None),
                 ins.status.GetOr(d.recordingStatus), ins.created_at.GetOr(now), ins.updated_at.GetOr(now))
  }

  function RecordingToInsert(row: RecordingRow): RecordingInsert {
    RecordingInsert(Some(row.id), row.room_id, row.title, Some(row.duration),
                    Some(row.file_url), Some(row.thumbnail_url), Some(row.status),
                    Some(row.created_at), Some(row.updated_at))
  }

  lemma RecordingInsertRoundTrip(row: RecordingRow, newId: Uuid, now: Timestamp, d: ColumnDefaults)
    ensures RecordingFromInsert(RecordingToInsert(row), newId, now, d) == row
  {
  }

  function ApplyRecordingUpdate(row: RecordingRow, u: RecordingUpdate): (r: RecordingRow)
    ensures r.created_at == row.created_at
    ensures u == RecordingUpdate(None, None, None, None, None, None, None, None) ==> r == row
  {
    RecordingRow(u.id.GetOr(row.id), u.room_id.GetOr(row.room_id), u.title.GetOr(row.title),
                 u.duration.GetOr(row.duration), u.file_url.GetOr(row.file_url),
                 u.thumbnail_url.GetOr(row.thumbnail_url), u.status.GetOr(row.status),
                 row.created_at, u.updated_at.GetOr(row.updated_at))
  }

  function MergeRecordingUpdates(u1: RecordingUpdate, u2: RecordingUpdate): RecordingUpdate {
    RecordingUpdate(Override(u1.id, u2.id), Override(u1.room_id, u2.room_id),
                    Override(u1.title, u2.title), Override(u1.duration, u2.duration),
                    Override(u1.file_url, u2.file_url), Override(u1.thumbnail_url, u2.thumbnail_url),
                    Override(u1.status, u2.status), Override(u1.updated_at, u2.updated_at))
  }

  lemma RecordingUpdatesCompose(row: RecordingRow, u1: RecordingUpdate, u2: RecordingUpdate)
    ensures ApplyRecordingUpdate(ApplyRecordingUpdate(row, u1), u2)
         == ApplyRecordingUpdate(row, MergeRecordingUpdates(u1, u2))
  {
  }

  // ------------------------------------------------------------ participants

  datatype ParticipantRow = ParticipantRow(
    id: Uuid, room_id: Uuid, user_id: Uuid, joined_at: Timestamp,
    left_at: Option<Timestamp>, is_host: bool)

  datatype ParticipantInsert = ParticipantInsert(
    id: Option<Uuid>, room_id: Uuid, user_id: Uuid, joined_at: Option<Timestamp>,
    left_at: Option<Option<Timestamp>>, is_host: Option<bool>)

  datatype ParticipantUpdate = ParticipantUpdate(
    id: Option<Uuid>, room_id: Option<Uuid>, user_id: Option<Uuid>, joined_at: Option<Timestamp>,
    left_at: Option<Option<Timestamp>>, is_host: Option<bool>)

  /** A participant is present in its room while left_at is null. */
  predicate Present(p: ParticipantRow) {
    p.left_at.None?
  }

  function ParticipantFromInsert(ins: ParticipantInsert, newId: Uuid, now: Timestamp, d: ColumnDefaults): (r: ParticipantRow)
    ensures r.room_id == ins.room_id && r.user_id == ins.user_id && r.id == ins.id.GetOr(newId)
    ensures r.joined_at == ins.joined_at.GetOr(now)
    ensures r.is_host == ins.is_host.GetOr(d.participantIsHost)
    // omitting left_at, or giving null, inserts a present participant
    ensures Present(r) <==> ins.left_at.None? || ins.left_at.value.None?
  {
    ParticipantRow(ins.id.GetOr(newId), ins.room_id, ins.user_id, ins.joined_at.GetOr(now),
                   ins.left_at.GetOr(None), ins.is_host.GetOr(d.participantIsHost))
  }

  function ParticipantToInsert(row: ParticipantRow): ParticipantInsert {
    ParticipantInsert(Some(row.id), row.room_id, row.user_id, Some(row.joined_at),
                      Some(row.left_at), Some(row.is_host))
  }

  lemma ParticipantInsertRoundTrip(row: ParticipantRow, newId: Uuid, now: Timestamp, d: ColumnDefaults)
    ensures ParticipantFromInsert(ParticipantToInsert(row), newId, now, d) == row
  {
  }

  function ApplyParticipantUpdate(row: ParticipantRow, u: ParticipantUpdate): (r: ParticipantRow)
    ensures u.left_at.Some? ==> (Present(r) <==> u.left_at.value.None?)
    ensures u.left_at.None? ==> (Present(r) <==> Present(row))
    ensures u == ParticipantUpdate(None, None, None, None, None, None) ==> r == row
  {
    ParticipantRow(u.id.GetOr(row.id), u.room_id.GetOr(row.room_id), u.user_id.GetOr(row.user_id),
                   u.joined_at.GetOr(row.joined_at), u.left_at.GetOr(row.left_at),
                   u.is_host.GetOr(row.is_host))
  }
}
