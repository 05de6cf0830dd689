/**
 * RoomService: rooms and their member records. Membership changes keep
 * `current_members` equal to the number of member records that are not
 * "left", which is part of the database invariant `Db.Valid()`.
 */
module RoomService {
  import opened Base
  import opened Seqs
  import opened Store

  // ---- room codes ----

  predicate IsRoomCodeChar(c: char)
  {
    ('A' <= c <= 'Z') || ('0' <= c <= '9')
  }

  /** "ROOM-" followed by six characters of A-Z0-9. */
  predicate IsRoomCode(s: string)
  {
    |s| == 11 && s[..5] == "ROOM-" && forall i :: 5 <= i < 11 ==> IsRoomCodeChar(s[i])
  }

  /** _generate_room_code, with the six random.choices draws as a parameter. */
  function GenerateRoomCode(draws: seq<char>): (code: string)
    requires |draws| == 6 && forall i :: 0 <= i < 6 ==> IsRoomCodeChar(draws[i])
    ensures IsRoomCode(code)
    ensures code[5..] == draws
  {
    "ROOM-" + draws
  }

  /** A room code is never mistaken for a room id by join_room. */
  lemma RoomCodeIsNotObjectId(s: string)
    requires IsRoomCode(s)
    ensures !IsObjectId(s)
  {
  }

  // ---- reads ----

  /** get_room_by_code: the first room with that code. */
  function GetRoomByCode(rooms: seq<Room>, code: string): (r: Option<Room>)
    ensures r.Some? ==> r.value in rooms && r.value.roomCode == code
    ensures r.None? <==> forall i :: 0 <= i < |rooms| ==> rooms[i].roomCode != code
  {
    FindFirst(rooms, RoomByCode(code))
  }

  function IsPublicOpen(): Room -> bool
  {
    (r: Room) => r.visibility == "public" && r.status == Open
  }

  function CreatedAt(): Room -> int
  {
    (r: Room) => r.createdAt
  }

  /** get_public_rooms: public, open rooms, newest first, after skip, at most |limit|. */
  function GetPublicRooms(rooms: seq<Room>, limit: int, skip: int): (r: seq<Room>)
    ensures forall i :: 0 <= i < |r| ==> r[i] in rooms && r[i].visibility == "public" && r[i].status == Open
    ensures forall i, j :: 0 <= i < j < |r| ==> r[i].createdAt >= r[j].createdAt
    ensures limit != 0 ==> |r| <= (if limit < 0 then -limit else limit)
    ensures skip < 0 ==> r == []
    ensures skip == 0 && limit == 0 ==> multiset(r) == multiset(Filter(rooms, IsPublicOpen()))
  {
    Query(rooms, IsPublicOpen(), CreatedAt(), skip, limit)
  }

  /** get_room_members: the active records stored under exactly this room_id. */
  function GetRoomMembers(members: seq<Member>, roomId: string): (r: seq<Member>)
    ensures forall i :: 0 <= i < |r| ==> r[i] in members && r[i].roomId == roomId && r[i].status == Active
    ensures forall k :: 0 <= k < |members| && members[k].roomId == roomId && members[k].status == Active
              ==> members[k] in r
  {
    var r := Filter(members, ActiveIn(roomId));
    assert forall i :: 0 <= i < |r| ==> r[i] in multiset(members);
    r
  }

  /** The user has an active membership whose room_id names the room with id `oid`. */
  predicate ActiveMemberOf(members: seq<Member>, userId: string, oid: string)
  {
    exists k :: 0 <= k < |members| && members[k].userId == userId && members[k].status == Active
                && IsObjectId(members[k].roomId) && Lower(members[k].roomId) == oid
  }

  /** The user has an active member record whose room_id is not an ObjectId. */
  predicate HasMalformedActiveRecord(members: seq<Member>, userId: string)
  {
    exists k :: 0 <= k < |members| && members[k].userId == userId && members[k].status == Active
                && !IsObjectId(members[k].roomId)
  }

  function ActiveRoomOf(members: seq<Member>, userId: string): Room -> bool
  {
    (room: Room) => ActiveMemberOf(members, userId, room.id)
  }

  /** get_user_rooms: the rooms, in natural order, that the user's active member
      records point to; a record whose room_id is not an ObjectId makes the
      conversion raise and the service return []. */
  function GetUserRooms(rooms: seq<Room>, members: seq<Member>, userId: string): (r: seq<Room>)
    ensures HasMalformedActiveRecord(members, userId) ==> r == []
    ensures forall i :: 0 <= i < |r| ==> r[i] in rooms && ActiveMemberOf(members, userId, r[i].id)
    ensures !HasMalformedActiveRecord(members, userId) ==>
      forall i :: 0 <= i < |rooms| && ActiveMemberOf(members, userId, rooms[i].id) ==> rooms[i] in r
  {
    if HasMalformedActiveRecord(members, userId) then []
    else
      var p := ActiveRoomOf(members, userId);
      var r := Filter(rooms, p);
      assert forall i :: 0 <= i < |r| ==> p(r[i]) && r[i] in multiset(rooms);
      r
  }

  // ---- the $inc on current_members ----

  /** update_one({'_id': ObjectId(room_id)}, {'$inc': {'current_members': delta}}). */
  function BumpMembers(rooms: seq<Room>, roomId: string, delta: int): seq<Room>
  {
    match RoomIndex(rooms, roomId)
    case None => rooms
    case Some(i) => rooms[i := rooms[i].(currentMembers := rooms[i].currentMembers + delta)]
  }

  // ---- add_room_member ----

  /** add_room_member's guards: the room exists, current_members < max_members,
      and no record of any status exists for (room_id, user_id). */
  predicate CanAdd(rooms: seq<Room>, members: seq<Member>, roomId: string, userId: string)
  {
    match FindRoom(rooms, roomId)
    case None => false
    case Some(room) =>
      room.currentMembers < room.maxMembers && FindFirst(members, MemberOf(roomId, userId)).None?
  }

  lemma MemberAddedKeepsInv(rooms: seq<Room>, members: seq<Member>, issued: set<string>, m: Member)
    requires RoomsInv(rooms, members, issued)
    requires RoomIndex(rooms, m.roomId).Some?
    requires m.status == Active && m.contributionAmount == 0.0
    requires forall k :: 0 <= k < |members| ==> !(members[k].roomId == m.roomId && members[k].userId == m.userId)
    ensures RoomsInv(BumpMembers(rooms, m.roomId, 1), members + [m], issued)
  {
    var i := RoomIndex(rooms, m.roomId).value;
    var rooms' := BumpMembers(rooms, m.roomId, 1);
    var members' := members + [m];
    forall j | 0 <= j < |rooms'|
      ensures rooms'[j].currentMembers == Count(members', CountedIn(rooms'[j].id))
    {
      CountAppend(members, m, CountedIn(rooms[j].id));
    }
    forall k, l | 0 <= k < l < |members'|
      ensures KeysDiffer()(members'[k], members'[l])
    {
      if l < |members| {
        assert members'[k] == members[k] && members'[l] == members[l];
      }
    }
  }

  /** add_room_member: on success a new active record with contribution 0 is
      appended and the room's current_members rises by exactly one; otherwise
      nothing changes. */
  method AddRoomMember(db: Db, roomId: string, userId: string, isCreator: bool, memberId: string, now: Time)
    returns (member: Option<Member>)
    requires db.Valid()
    modifies db`rooms, db`members
    ensures db.Valid()
    ensures member.Some? <==> CanAdd(old(db.rooms), old(db.members), roomId, userId)
    ensures member.Some? ==>
      member.value == Member(memberId, roomId, userId, 0.0, isCreator, now, Active)
      && db.members == old(db.members) + [member.value]
      && db.rooms == BumpMembers(old(db.rooms), roomId, 1)
    ensures member.Some? ==>
      var i := RoomIndex(old(db.rooms), roomId).value;
      |db.rooms| == |old(db.rooms)| && db.rooms[i].currentMembers == old(db.rooms)[i].currentMembers + 1
    ensures member.None? ==> db.rooms == old(db.rooms) && db.members == old(db.members)
  {
    var room := FindRoom(db.rooms, roomId);
    if room.None? || room.value.currentMembers >= room.value.maxMembers {
      return None;
    }
    var existing := FindFirst(db.members, MemberOf(roomId, userId));
    if existing.Some? {
      return None;
    }
    var m := Member(memberId, roomId, userId, 0.0, isCreator, now, Active);
    MemberAddedKeepsInv(db.rooms, db.members, db.issuedRoomIds, m);
    db.members := db.members + [m];
    db.rooms := BumpMembers(db.rooms, roomId, 1);
    member := Some(m);
  }

  // ---- remove_room_member ----

  /** remove_room_member's outcome: refused for the creator of a room that can be
      read; otherwise true iff the first (room_id, user_id) record is not already "left". */
  predicate CanRemove(rooms: seq<Room>, members: seq<Member>, roomId: string, userId: string)
  {
    var room := FindRoom(rooms, roomId);
    !(room.Some? && room.value.creatorId == userId)
    && match IndexOf(members, MemberOf(roomId, userId))
       case None => false
       case Some(k) => members[k].status != Left
  }

  lemma MemberLeftKeepsInv(rooms: seq<Room>, members: seq<Member>, issued: set<string>, k: nat)
    requires RoomsInv(rooms, members, issued)
    requires k < |members| && members[k].status != Left
    ensures RoomsInv(BumpMembers(rooms, members[k].roomId, -1), members[k := members[k].(status := Left)], issued)
  {
    MemberLeftKeepsCounts(rooms, members, issued, k);
    MemberLeftKeepsKeys(members, k);
    var rooms' := BumpMembers(rooms, members[k].roomId, -1);
    assert forall j :: 0 <= j < |rooms'| ==> rooms'[j].id == rooms[j].id;
    var members' := members[k := members[k].(status := Left)];
    assert forall j :: 0 <= j < |members'| ==>
      members'[j].roomId == members[j].roomId && members'[j].contributionAmount == members[j].contributionAmount;
  }

  lemma MemberLeftKeepsCounts(rooms: seq<Room>, members: seq<Member>, issued: set<string>, k: nat)
    requires RoomsInv(rooms, members, issued)
    requires k < |members| && members[k].status != Left
    ensures MemberCountsAgree(BumpMembers(rooms, members[k].roomId, -1), members[k := members[k].(status := Left)])
  {
    var m' := members[k].(status := Left);
    var rooms' := BumpMembers(rooms, members[k].roomId, -1);
    var members' := members[k := m'];
    forall j | 0 <= j < |rooms'|
      ensures rooms'[j].currentMembers == Count(members', CountedIn(rooms'[j].id))
    {
      CountUpdate(members, k, m', CountedIn(rooms[j].id));
    }
  }

  lemma MemberLeftKeepsKeys(members: seq<Member>, k: nat)
    requires MemberKeysUnique(members) && k < |members|
    ensures MemberKeysUnique(members[k := members[k].(status := Left)])
  {
    var members' := members[k := members[k].(status := Left)];
    forall a, b | 0 <= a < b < |members'|
      ensures KeysDiffer()(members'[a], members'[b])
    {
      assert KeysDiffer()(members[a], members[b]);
    }
  }

  /** remove_room_member: sets the first matching record to "left" and lowers
      current_members by one only when that record changed. */
  method RemoveRoomMember(db: Db, roomId: string, userId: string) returns (ok: bool)
    requires db.Valid()
    modifies db`rooms, db`members
    ensures db.Valid()
    ensures ok <==> CanRemove(old(db.rooms), old(db.members), roomId, userId)
    ensures ok ==>
      var k := IndexOf(old(db.members), MemberOf(roomId, userId)).value;
      db.members == old(db.members)[k := old(db.members)[k].(status := Left)]
      && db.rooms == BumpMembers(old(db.rooms), roomId, -1)
    ensures !ok ==> db.rooms == old(db.rooms) && db.members == old(db.members)
  {
    var room := FindRoom(db.rooms, roomId);
    if room.Some? && room.value.creatorId == userId {
      return false;
    }
    var k := IndexOf(db.members, MemberOf(roomId, userId));
    if k.None? || db.members[k.value].status == Left {
      // update_one matched nothing, or matched a record already "left": modified_count == 0
      return false;
    }
    var i := k.value;
    assert db.members[i].roomId == roomId by {
      assert MemberOf(roomId, userId)(db.members[i]);
    }
    MemberLeftKeepsInv(db.rooms, db.members, db.issuedRoomIds, i);
    db.members, db.rooms := db.members[i := db.members[i].(status := Left)], BumpMembers(db.rooms, roomId, -1);
    ok := true;
  }

  // ---- delete_room ----

  function StoredUnder(roomId: string): Member -> bool
  {
    (m: Member) => m.roomId != roomId
  }

  lemma RoomDeletedKeepsIds(rooms: seq<Room>, issued: set<string>, i: nat)
    requires RoomIdsIssued(rooms, issued) && i < |rooms|
    ensures RoomIdsIssued(RemoveAt(rooms, i), issued)
    ensures forall j :: 0 <= j < |RemoveAt(rooms, i)| ==> RemoveAt(rooms, i)[j].id != rooms[i].id
  {
  }

  lemma FilteredMembersWellFormed(members: seq<Member>, issued: set<string>, p: Member -> bool)
    requires MembersWellFormed(members, issued) && MemberKeysUnique(members)
    ensures MembersWellFormed(Filter(members, p), issued) && MemberKeysUnique(Filter(members, p))
  {
    var members' := Filter(members, p);
    forall k | 0 <= k < |members'|
      ensures IsObjectId(members'[k].roomId) && Lower(members'[k].roomId) in issued
      ensures members'[k].contributionAmount == 0.0
    {
      assert members'[k] in multiset(members);
      assert members'[k] in members;
    }
    FilterPairwise(members, p, KeysDiffer());
  }

  lemma RoomDeletedKeepsCounts(rooms: seq<Room>, members: seq<Member>, issued: set<string>, roomId: string, i: nat)
    requires MemberCountsAgree(rooms, members) && RoomIdsIssued(rooms, issued)
    requires i < |rooms| && rooms[i].id == Lower(roomId)
    ensures MemberCountsAgree(RemoveAt(rooms, i), Filter(members, StoredUnder(roomId)))
  {
    var rooms' := RemoveAt(rooms, i);
    forall j | 0 <= j < |rooms'|
      ensures rooms'[j].currentMembers == Count(Filter(members, StoredUnder(roomId)), CountedIn(rooms'[j].id))
    {
      var jj := if j < i then j else j + 1;
      assert rooms'[j] == rooms[jj] && rooms[jj].id != rooms[i].id;
      CountFilter(members, StoredUnder(roomId), CountedIn(rooms[jj].id));
    }
  }

  /** Removing room i together with the member records stored under its id keeps the invariant. */
  lemma RoomDeletedKeepsInv(rooms: seq<Room>, members: seq<Member>, issued: set<string>, roomId: string, i: nat)
    requires RoomsInv(rooms, members, issued)
    requires i < |rooms| && rooms[i].id == Lower(roomId)
    ensures RoomsInv(RemoveAt(rooms, i), Filter(members, StoredUnder(roomId)), issued)
    ensures forall j :: 0 <= j < |RemoveAt(rooms, i)| ==> RemoveAt(rooms, i)[j].id != Lower(roomId)
  {
    RoomDeletedKeepsIds(rooms, issued, i);
    FilteredMembersWellFormed(members, issued, StoredUnder(roomId));
    RoomDeletedKeepsCounts(rooms, members, issued, roomId, i);
  }

  /** delete_room: only the creator; removes the room and every member record
      stored under exactly this room_id. */
  method DeleteRoom(db: Db, roomId: string, userId: string) returns (ok: bool)
    requires db.Valid()
    modifies db`rooms, db`members
    ensures db.Valid()
    ensures ok <==> FindRoom(old(db.rooms), roomId).Some? && FindRoom(old(db.rooms), roomId).value.creatorId == userId
    ensures ok ==>
      var i := RoomIndex(old(db.rooms), roomId).value;
      db.rooms == RemoveAt(old(db.rooms), i)
      && db.members == Filter(old(db.members), StoredUnder(roomId))
    ensures ok ==> forall j :: 0 <= j < |db.rooms| ==> db.rooms[j].id != Lower(roomId)
    ensures ok ==> forall k :: 0 <= k < |db.members| ==> db.members[k].roomId != roomId
    ensures !ok ==> db.rooms == old(db.rooms) && db.members == old(db.members)
  {
    var room := FindRoom(db.rooms, roomId);
    if room.None? || room.value.creatorId != userId {
      return false;
    }
    RemoveRoom(db, roomId, RoomIndex(db.rooms, roomId).value);
    ok := true;
  }

  /** The two deletes of delete_room: the room document, then the member records under its id. */
  method RemoveRoom(db: Db, roomId: string, i: nat)
    requires db.Valid() && i < |db.rooms| && db.rooms[i].id == Lower(roomId)
    modifies db`rooms, db`members
    ensures db.Valid()
    ensures db.rooms == RemoveAt(old(db.rooms), i) && db.members == Filter(old(db.members), StoredUnder(roomId))
    ensures forall j :: 0 <= j < |db.rooms| ==> db.rooms[j].id != Lower(roomId)
    ensures forall k :: 0 <= k < |db.members| ==> db.members[k].roomId != roomId
  {
    RoomDeletedKeepsInv(db.rooms, db.members, db.issuedRoomIds, roomId, i);
    db.rooms := RemoveAt(db.rooms, i);
    db.members := Filter(db.members, StoredUnder(roomId));
  }

  // ---- update_room_collected_amount ----

  /** The room after update_room_collected_amount: the amount is added, and an
      open room whose positive goal is now met becomes ready. */
  function AddCollected(room: Room, amount: real, now: Time): (r: Room)
    ensures r.collectedAmount == room.collectedAmount + amount
    ensures r.status == Ready <==>
      room.status == Ready || (room.status == Open && room.goalAmount > 0.0 && r.collectedAmount >= room.goalAmount)
    ensures r.status != room.status ==> room.status == Open && r.status == Ready
    ensures r.(collectedAmount := room.collectedAmount, status := room.status, updatedAt := room.updatedAt) == room
  {
    var c := room.collectedAmount + amount;
    room.(collectedAmount := c, updatedAt := now,
          status := if room.goalAmount > 0.0 && c >= room.goalAmount && room.status == Open then Ready else room.status)
  }

  /** The rooms collection after update_room_collected_amount(roomId, amount). */
  function CollectedWrite(rooms: seq<Room>, roomId: string, amount: real, now: Time): seq<Room>
  {
    match RoomIndex(rooms, roomId)
    case None => rooms
    case Some(i) => rooms[i := AddCollected(rooms[i], amount, now)]
  }

  /** update_room_collected_amount: $inc collected_amount and $set updated_at, so
      the write always modifies a room it finds; then the ready transition. */
  method UpdateRoomCollectedAmount(db: Db, roomId: string, amount: real, now: Time) returns (ok: bool)
    requires db.Valid()
    modifies db`rooms
    ensures db.Valid()
    ensures ok <==> RoomIndex(old(db.rooms), roomId).Some?
    ensures db.rooms == CollectedWrite(old(db.rooms), roomId, amount, now)
  {
    var i := RoomIndex(db.rooms, roomId);
    if i.None? {
      return false;
    }
    var k := i.value;
    ghost var rooms0 := db.rooms;
    SetRoom(db, k, db.rooms[k].(collectedAmount := db.rooms[k].collectedAmount + amount, updatedAt := now));
    // the re-read finds the same document
    var doc := db.rooms[k];
    if doc.goalAmount > 0.0 && doc.collectedAmount >= doc.goalAmount && doc.status == Open {
      SetRoom(db, k, doc.(status := Ready, updatedAt := now));
    }
    assert db.rooms == rooms0[k := AddCollected(rooms0[k], amount, now)];
    ok := true;
  }

  /** One update_one on a room that leaves its id and current_members alone. */
  method SetRoom(db: Db, k: nat, r: Room)
    requires db.Valid() && k < |db.rooms|
    requires r.id == db.rooms[k].id && r.currentMembers == db.rooms[k].currentMembers
    modifies db`rooms
    ensures db.Valid()
    ensures db.rooms == old(db.rooms)[k := r]
  {
    RoomRewrittenKeepsInv(db.rooms, db.members, db.issuedRoomIds, k, r);
    db.rooms := db.rooms[k := r];
  }

  /** Rewriting a room without touching its id or current_members keeps the invariant. */
  lemma RoomRewrittenKeepsInv(rooms: seq<Room>, members: seq<Member>, issued: set<string>, k: nat, r: Room)
    requires RoomsInv(rooms, members, issued) && k < |rooms|
    requires r.id == rooms[k].id && r.currentMembers == rooms[k].currentMembers
    ensures RoomsInv(rooms[k := r], members, issued)
  {
    var t := rooms[k := r];
    assert forall i :: 0 <= i < |t| ==> t[i].id == rooms[i].id && t[i].currentMembers == rooms[i].currentMembers;
  }

  // ---- create_room ----

  datatype RoomCreate = RoomCreate(
    name: string,
    description: string,
    goalAmount: real,
    maxMembers: int,
    riskLevel: string,
    investmentType: string,
    visibility: string,
    creatorId: string)

  lemma RoomInsertedKeepsInv(rooms: seq<Room>, members: seq<Member>, issued: set<string>, r: Room)
    requires RoomsInv(rooms, members, issued)
    requires IsCanonicalObjectId(r.id) && r.id !in issued && r.currentMembers == 0
    ensures RoomsInv(rooms + [r], members, issued + {r.id})
    ensures RoomIndex(rooms + [r], r.id) == Some(|rooms|)
    ensures forall k :: 0 <= k < |members| ==> members[k].roomId != r.id
  {
    forall k | 0 <= k < |members|
      ensures !CountedIn(r.id)(members[k]) && members[k].roomId != r.id
    {
    }
    CountNone(members, CountedIn(r.id));
    IndexOfAt(rooms + [r], RoomById(Lower(r.id)), |rooms|);
  }

  /** The $inc on current_members leaves every id, and so every lookup, as it was. */
  lemma BumpKeepsIndex(rooms: seq<Room>, roomId: string, delta: int)
    ensures |BumpMembers(rooms, roomId, delta)| == |rooms|
    ensures RoomIndex(BumpMembers(rooms, roomId, delta), roomId) == RoomIndex(rooms, roomId)
  {
    match RoomIndex(rooms, roomId)
    case None =>
    case Some(i) =>
      IndexOfAt(BumpMembers(rooms, roomId, delta), RoomById(Lower(roomId)), i);
  }

  /** create_room: inserts an open room with nothing collected and then adds the
      creator as its first member, so current_members is 1 unless max_members < 1. */
  method CreateRoom(db: Db, data: RoomCreate, code: string, roomId: string, memberId: string, now: Time)
    returns (room: Option<Room>)
    requires db.Valid()
    requires IsCanonicalObjectId(roomId) && roomId !in db.issuedRoomIds
    modifies db`rooms, db`members, db`issuedRoomIds
    ensures db.Valid()
    ensures db.issuedRoomIds == old(db.issuedRoomIds) + {roomId}
    ensures |db.rooms| == |old(db.rooms)| + 1 && db.rooms[..|old(db.rooms)|] == old(db.rooms)
    ensures room == Some(db.rooms[|old(db.rooms)|])
    ensures var r := room.value;
      r.id == roomId && r.name == data.name && r.description == data.description
      && r.goalAmount == data.goalAmount && r.maxMembers == data.maxMembers
      && r.riskLevel == data.riskLevel && r.investmentType == data.investmentType
      && r.visibility == data.visibility && r.roomCode == code && r.creatorId == data.creatorId
      && r.collectedAmount == 0.0 && r.status == Open && !r.hasExecution
      && r.createdAt == now && r.updatedAt == now && r.closedAt.None?
      && r.finalInvestedAmount.None? && r.finalPortfolioValue.None? && r.finalProfit.None?
    ensures room.value.currentMembers == if data.maxMembers > 0 then 1 else 0
    ensures data.maxMembers > 0 ==>
      db.members == old(db.members) + [Member(memberId, roomId, data.creatorId, 0.0, true, now, Active)]
    ensures data.maxMembers <= 0 ==> db.members == old(db.members)
  {
    var r := Room(roomId, data.name, data.description, data.goalAmount, data.maxMembers, data.riskLevel,
                  data.investmentType, data.visibility, 0.0, 0, Open, code, data.creatorId, now, now,
                  false, None, None, None, None);
    RoomInsertedKeepsInv(db.rooms, db.members, db.issuedRoomIds, r);
    ghost var n := |db.rooms|;
    db.issuedRoomIds := db.issuedRoomIds + {roomId};
    db.rooms := db.rooms + [r];
    ghost var inserted := db.rooms;
    assert FindRoom(inserted, roomId) == Some(r);
    assert FindFirst(db.members, MemberOf(roomId, data.creatorId)).None?;
    var added := AddRoomMember(db, roomId, data.creatorId, true, memberId, now);
    BumpKeepsIndex(inserted, roomId, 1);
    room := FindRoom(db.rooms, roomId);
  }

  // ---- update_room ----

  /** The fields PUT /rooms/<id> may change; a key absent from the body is None. */
  datatype RoomPatch = RoomPatch(
    name: Option<string>,
    description: Option<string>,
    goalAmount: Option<real>,
    maxMembers: Option<int>,
    riskLevel: Option<string>,
    investmentType: Option<string>,
    visibility: Option<string>)

  function OrKeep<T>(o: Option<T>, current: T): T
  {
    if o.Some? then o.value else current
  }

  /** update_room as intended: $set only the supplied fields, goal_amount as a
      float, and updated_at. */
  function ApplyPatch(room: Room, p: RoomPatch, now: Time): (r: Room)
    ensures p.name.Some? ==> r.name == p.name.value
    ensures p.description.Some? ==> r.description == p.description.value
    ensures p.goalAmount.Some? ==> r.goalAmount == p.goalAmount.value
    ensures p.maxMembers.Some? ==> r.maxMembers == p.maxMembers.value
    ensures p.riskLevel.Some? ==> r.riskLevel == p.riskLevel.value
    ensures p.investmentType.Some? ==> r.investmentType == p.investmentType.value
    ensures p.visibility.Some? ==> r.visibility == p.visibility.value
    ensures p == RoomPatch(None, None, None, None, None, None, None) ==> r == room.(updatedAt := now)
    ensures r.(name := room.name, description := room.description, goalAmount := room.goalAmount,
               maxMembers := room.maxMembers, riskLevel := room.riskLevel,
               investmentType := room.investmentType, visibility := room.visibility,
               updatedAt := room.updatedAt) == room
  {
    room.(name := OrKeep(p.name, room.name), description := OrKeep(p.description, room.description),
          goalAmount := OrKeep(p.goalAmount, room.goalAmount), maxMembers := OrKeep(p.maxMembers, room.maxMembers),
          riskLevel := OrKeep(p.riskLevel, room.riskLevel),
          investmentType := OrKeep(p.investmentType, room.investmentType),
          visibility := OrKeep(p.visibility, room.visibility), updatedAt := now)
  }

  /** update_room (corrected): the write carries updated_at, so a room that is
      found is always modified and read back. */
  method UpdateRoom(db: Db, roomId: string, p: RoomPatch, now: Time) returns (r: Option<Room>)
    requires db.Valid()
    modifies db`rooms
    ensures db.Valid()
    ensures RoomIndex(old(db.rooms), roomId).None? ==> r.None? && db.rooms == old(db.rooms)
    ensures RoomIndex(old(db.rooms), roomId).Some? ==>
      var i := RoomIndex(old(db.rooms), roomId).value;
      db.rooms == old(db.rooms)[i := ApplyPatch(old(db.rooms)[i], p, now)] && r == Some(db.rooms[i])
  {
    var i := RoomIndex(db.rooms, roomId);
    if i.None? {
      return None;
    }
    db.rooms := db.rooms[i.value := ApplyPatch(db.rooms[i.value], p, now)];
    r := Some(db.rooms[i.value]);
  }

  // ---- update_room as written ----

  /** The `$set` document the as-written update route produces: every one of the
      seven keys is passed to RoomUpdate, exclude_unset keeps the ones passed as
      None, so an absent field is written as null; a supplied goal_amount is a
      Decimal, which BSON cannot encode (None: the update raises, nothing is written). */
  function UpdateDocAsWritten(p: RoomPatch): (d: Option<RoomPatch>)
    ensures d.None? <==> p.goalAmount.Some?
    ensures d.Some? ==> d.value.goalAmount.None?
  {
    if p.goalAmount.Some? then None else Some(p)
  }

  /** RoomResponse(**doc) parses only when none of the seven fields is null. */
  predicate ParsesAsRoomResponse(stored: RoomPatch)
  {
    stored.name.Some? && stored.description.Some? && stored.goalAmount.Some? && stored.maxMembers.Some?
    && stored.riskLevel.Some? && stored.investmentType.Some? && stored.visibility.Some?
  }

  /** The status PUT /rooms/<id> returns, as written, to the creator of an existing room. */
  function UpdateRouteStatusAsWritten(p: RoomPatch): int
  {
    match UpdateDocAsWritten(p)
    case None => 500
    case Some(stored) => if ParsesAsRoomResponse(stored) then 200 else 500
  }

  /** As written, no update request succeeds, and one without goal_amount leaves
      a room that get_room_by_id can no longer read. */
  lemma UpdateRoomAsWrittenFails(p: RoomPatch)
    ensures UpdateRouteStatusAsWritten(p) == 500
    ensures p.goalAmount.None? ==> UpdateDocAsWritten(p).Some? && !ParsesAsRoomResponse(UpdateDocAsWritten(p).value)
  {
  }

  /** Corrected: an update that supplies every field leaves a readable room holding them. */
  lemma UpdateRoomCorrectedStoresPatch(room: Room, p: RoomPatch, now: Time)
    requires ParsesAsRoomResponse(p)
    ensures var r := ApplyPatch(room, p, now);
      r.name == p.name.value && r.description == p.description.value && r.goalAmount == p.goalAmount.value
      && r.maxMembers == p.maxMembers.value && r.riskLevel == p.riskLevel.value
      && r.investmentType == p.investmentType.value && r.visibility == p.visibility.value
      && r.id == room.id && r.currentMembers == room.currentMembers && r.status == room.status
  {
  }
}
