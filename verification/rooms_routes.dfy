/**
 * The room endpoints: listing, creating, reading, updating and deleting rooms,
 * joining by id or by code, and leaving. Deleting a room and leaving one hand
 * the completed contributions made to it back to the members' wallets
 * directly: the balance alone is raised (no total is touched) and a completed
 * "refund" transaction is inserted without going through create_transaction.
 */
module RoomRoutes {
  import opened Base
  import opened Seqs
  import opened Store
  import opened RoomService
  import opened WalletService

  // ---- get_rooms ----

  /** The `type` query argument, "user" when it is absent. */
  function RoomType(roomType: Option<string>): string
  {
    if roomType.Some? then roomType.value else "user"
  }

  /** get_rooms: for type "public" the public, open rooms (the caller need not
      have an account); for type "user" the caller's rooms, with limit and skip
      echoed but not applied; any other type is refused with 400. Limit
      defaults to 20 and skip to 0. */
  function RoomsPage(rooms: seq<Room>, members: seq<Member>, users: map<string, string>, userId: Option<string>,
                     roomType: Option<string>, limit: Option<int>, skip: Option<int>): (p: Listing<Room>)
    ensures p.PageError? <==>
      !Truthy(userId) || (RoomType(roomType) == "user" && userId.value !in users)
      || (RoomType(roomType) != "user" && RoomType(roomType) != "public")
    ensures p.PageError? ==>
      (p.code == 400 <==> Truthy(userId) && RoomType(roomType) != "user" && RoomType(roomType) != "public")
    ensures p.PageError? ==> p.code == 400 || p.code == 404
    ensures p.Listed? ==> p.limit == ArgOr(limit, 20) && p.skip == ArgOr(skip, 0) && p.count == |p.items|
    ensures p.Listed? && RoomType(roomType) == "public" ==>
      p.items == GetPublicRooms(rooms, p.limit, p.skip)
      && forall i :: 0 <= i < |p.items| ==>
           p.items[i] in rooms && p.items[i].visibility == "public" && p.items[i].status == Open
    ensures p.Listed? && RoomType(roomType) == "user" ==>
      p.items == GetUserRooms(rooms, members, users[userId.value])
      && forall i :: 0 <= i < |p.items| ==>
           p.items[i] in rooms && ActiveMemberOf(members, users[userId.value], p.items[i].id)
  {
    if !Truthy(userId) then PageError(404)
    else
      var l, s := ArgOr(limit, 20), ArgOr(skip, 0);
      var t := RoomType(roomType);
      if t == "public" then
        var items := GetPublicRooms(rooms, l, s);
        Listed(items, l, s, |items|)
      else if t == "user" then
        if userId.value !in users then PageError(404)
        else
          var items := GetUserRooms(rooms, members, users[userId.value]);
          Listed(items, l, s, |items|)
      else PageError(400)
  }

  /** The public listing is the same whether or not the caller has an account. */
  lemma PublicListingNeedsNoAccount(rooms: seq<Room>, members: seq<Member>, u1: map<string, string>,
                                    u2: map<string, string>, userId: Option<string>, roomType: Option<string>,
                                    limit: Option<int>, skip: Option<int>)
    requires RoomType(roomType) == "public"
    ensures RoomsPage(rooms, members, u1, userId, roomType, limit, skip)
            == RoomsPage(rooms, members, u2, userId, roomType, limit, skip)
  {
  }

  /** The caller's own rooms are listed in full, whatever limit and skip say. */
  lemma UserListingIgnoresPaging(rooms: seq<Room>, members: seq<Member>, users: map<string, string>,
                                 userId: Option<string>, l1: Option<int>, s1: Option<int>, l2: Option<int>,
                                 s2: Option<int>)
    requires RoomsPage(rooms, members, users, userId, None, l1, s1).Listed?
    ensures RoomsPage(rooms, members, users, userId, None, l2, s2).Listed?
    ensures RoomsPage(rooms, members, users, userId, None, l1, s1).items
            == RoomsPage(rooms, members, users, userId, None, l2, s2).items
  {
  }

  // ---- create_room ----

  /** The refusals of create_room in its order: no identity (404), no body
      (400), a required key missing (400, visibility alone is optional), then
      a caller with no account (404). The body is a RoomPatch: None for a
      missing or empty JSON body, a None field for an absent key. */
  function CreateRefusal(users: map<string, string>, userId: Option<string>, body: Option<RoomPatch>)
    : (r: Option<int>)
    ensures r.None? <==>
      CallerId(users, userId).Some? && body.Some? && body.value.name.Some? && body.value.description.Some?
      && body.value.goalAmount.Some? && body.value.maxMembers.Some? && body.value.riskLevel.Some?
      && body.value.investmentType.Some?
    ensures r == Some(400) <==>
      Truthy(userId)
      && (body.None? || body.value.name.None? || body.value.description.None? || body.value.goalAmount.None?
          || body.value.maxMembers.None? || body.value.riskLevel.None? || body.value.investmentType.None?)
    ensures r.Some? ==> r.value == 400 || r.value == 404
  {
    if !Truthy(userId) then Some(404)
    else if body.None? then Some(400)
    else
      var b := body.value;
      if b.name.None? || b.description.None? || b.goalAmount.None? || b.maxMembers.None? || b.riskLevel.None?
         || b.investmentType.None? then Some(400)
      else if userId.value !in users then Some(404)
      else None
  }

  /** The RoomCreate the route builds: visibility defaults to "public" and the
      creator is the caller's database id. */
  function RoomRequest(uid: string, b: RoomPatch): (d: RoomCreate)
    requires b.name.Some? && b.description.Some? && b.goalAmount.Some? && b.maxMembers.Some?
    requires b.riskLevel.Some? && b.investmentType.Some?
    ensures d.creatorId == uid
    ensures d.visibility == if b.visibility.Some? then b.visibility.value else "public"
    ensures d.name == b.name.value && d.description == b.description.value && d.goalAmount == b.goalAmount.value
    ensures d.maxMembers == b.maxMembers.value && d.riskLevel == b.riskLevel.value
    ensures d.investmentType == b.investmentType.value
  {
    RoomCreate(b.name.value, b.description.value, b.goalAmount.value, b.maxMembers.value, b.riskLevel.value,
               b.investmentType.value, if b.visibility.Some? then b.visibility.value else "public", uid)
  }

  /** create_room: 201 with the new open room, whose code is drawn from
      `draws` and whose creator has joined it as its first member (when
      max_members allows one). */
  method CreateRoomRoute(db: Db, userId: Option<string>, body: Option<RoomPatch>, draws: seq<char>,
                         roomId: string, memberId: string, now: Time)
    returns (code: int, room: Option<Room>)
    requires db.Valid()
    requires |draws| == 6 && forall i :: 0 <= i < 6 ==> IsRoomCodeChar(draws[i])
    requires IsCanonicalObjectId(roomId) && roomId !in db.issuedRoomIds
    modifies db`rooms, db`members, db`issuedRoomIds
    ensures db.Valid()
    ensures CreateRefusal(db.users, userId, body).Some? ==>
      code == CreateRefusal(db.users, userId, body).value && room.None?
      && db.rooms == old(db.rooms) && db.members == old(db.members) && db.issuedRoomIds == old(db.issuedRoomIds)
    ensures CreateRefusal(db.users, userId, body).None? ==>
      code == 201 && room.Some? && db.issuedRoomIds == old(db.issuedRoomIds) + {roomId}
      && |db.rooms| == |old(db.rooms)| + 1 && room.value == db.rooms[|old(db.rooms)|]
      && db.rooms[..|old(db.rooms)|] == old(db.rooms)
    ensures CreateRefusal(db.users, userId, body).None? ==>
      var b, r := body.value, room.value;
      && r.id == roomId && r.status == Open && !r.hasExecution && r.collectedAmount == 0.0
      && r.creatorId == db.users[userId.value] && IsRoomCode(r.roomCode) && r.roomCode[5..] == draws
      && r.name == b.name.value && r.description == b.description.value
      && r.goalAmount == b.goalAmount.value && r.maxMembers == b.maxMembers.value
      && r.riskLevel == b.riskLevel.value && r.investmentType == b.investmentType.value
      && r.visibility == (if b.visibility.Some? then b.visibility.value else "public")
      && r.createdAt == now && r.updatedAt == now
      && r.currentMembers == (if b.maxMembers.value > 0 then 1 else 0)
    ensures CreateRefusal(db.users, userId, body).None? ==>
      db.members == old(db.members)
        + (if body.value.maxMembers.value > 0
           then [Member(memberId, roomId, db.users[userId.value], 0.0, true, now, Active)] else [])
  {
    var refusal := CreateRefusal(db.users, userId, body);
    if refusal.Some? {
      return refusal.value, None;
    }
    var data := RoomRequest(db.users[userId.value], body.value);
    room := CreateRoom(db, data, GenerateRoomCode(draws), roomId, memberId, now);
    code := if room.None? then 500 else 201;
  }

  // ---- get_room ----

  /** The payload of get_room. */
  datatype RoomView = RoomView(room: Room, members: seq<Member>, isCurrentUserCreator: bool, hasExecution: bool)

  /** get_room: None (404) when no room has that id; otherwise the room, its
      active members, whether the caller is a known user who created it, and
      the has_execution flag of the stored document. */
  function GetRoomRoute(rooms: seq<Room>, members: seq<Member>, users: map<string, string>,
                        userId: Option<string>, roomId: string): (v: Option<RoomView>)
    ensures v.None? <==> FindRoom(rooms, roomId).None?
    ensures v.Some? ==> v.value.room in rooms && v.value.room.id == Lower(roomId)
    ensures v.Some? ==> forall i :: 0 <= i < |v.value.members| ==>
      v.value.members[i] in members && v.value.members[i].roomId == roomId && v.value.members[i].status == Active
    ensures v.Some? ==> forall m :: m in members && m.roomId == roomId && m.status == Active ==> m in v.value.members
    ensures v.Some? ==> (v.value.isCurrentUserCreator <==> CallerId(users, userId) == Some(v.value.room.creatorId))
    ensures v.Some? ==> v.value.hasExecution == v.value.room.hasExecution
  {
    match FindRoom(rooms, roomId)
    case None => None
    case Some(room) =>
      var creator := match CallerId(users, userId) case Some(uid) => room.creatorId == uid case None => false;
      Some(RoomView(room, GetRoomMembers(members, roomId), creator, room.hasExecution))
  }

  // ---- who may manage a room ----

  /** The refusals update_room and delete_room share: no identity, no account
      or no such room (404), and a caller who is not the creator (403). */
  function ManageRefusal(rooms: seq<Room>, users: map<string, string>, userId: Option<string>, roomId: string)
    : (r: Option<int>)
    ensures r.None? <==>
      CallerId(users, userId).Some? && FindRoom(rooms, roomId).Some?
      && FindRoom(rooms, roomId).value.creatorId == CallerId(users, userId).value
    ensures r == Some(403) <==>
      CallerId(users, userId).Some? && FindRoom(rooms, roomId).Some?
      && FindRoom(rooms, roomId).value.creatorId != CallerId(users, userId).value
    ensures r.Some? ==> r.value == 403 || r.value == 404
  {
    match CallerId(users, userId)
    case None => Some(404)
    case Some(uid) =>
      match FindRoom(rooms, roomId)
      case None => Some(404)
      case Some(room) => if room.creatorId != uid then Some(403) else None
  }

  /** The refusals of leave_room: the same 404s, and 400 for the creator. */
  function LeaveRefusal(rooms: seq<Room>, users: map<string, string>, userId: Option<string>, roomId: string)
    : (r: Option<int>)
    ensures r.None? <==>
      CallerId(users, userId).Some? && FindRoom(rooms, roomId).Some?
      && FindRoom(rooms, roomId).value.creatorId != CallerId(users, userId).value
    ensures r == Some(400) <==>
      CallerId(users, userId).Some? && FindRoom(rooms, roomId).Some?
      && FindRoom(rooms, roomId).value.creatorId == CallerId(users, userId).value
    ensures r.Some? ==> r.value == 400 || r.value == 404
  {
    match CallerId(users, userId)
    case None => Some(404)
    case Some(uid) =>
      match FindRoom(rooms, roomId)
      case None => Some(404)
      case Some(room) => if room.creatorId == uid then Some(400) else None
  }

  /** The creator flag get_room shows is exactly the right to update or delete
      the room, and a caller shown as creator is one leave_room refuses. */
  lemma CreatorFlagIsManageRight(rooms: seq<Room>, members: seq<Member>, users: map<string, string>,
                                 userId: Option<string>, roomId: string)
    requires GetRoomRoute(rooms, members, users, userId, roomId).Some?
    ensures GetRoomRoute(rooms, members, users, userId, roomId).value.isCurrentUserCreator
            <==> ManageRefusal(rooms, users, userId, roomId).None?
    ensures GetRoomRoute(rooms, members, users, userId, roomId).value.isCurrentUserCreator
            <==> LeaveRefusal(rooms, users, userId, roomId) == Some(400)
    ensures CallerId(users, userId).Some? ==>
      (ManageRefusal(rooms, users, userId, roomId).None? <==> LeaveRefusal(rooms, users, userId, roomId).Some?)
  {
  }

  // ---- update_room ----

  /** update_room: after the shared refusals, 400 for a missing or empty body;
      otherwise the supplied fields are written (RoomService.UpdateRoom, as
      corrected) and the room read back with 200. */
  method UpdateRoomRoute(db: Db, userId: Option<string>, roomId: string, body: Option<RoomPatch>, now: Time)
    returns (code: int, room: Option<Room>)
    requires db.Valid()
    modifies db`rooms
    ensures db.Valid()
    ensures ManageRefusal(old(db.rooms), db.users, userId, roomId).Some? ==>
      code == ManageRefusal(old(db.rooms), db.users, userId, roomId).value && room.None?
      && db.rooms == old(db.rooms)
    ensures ManageRefusal(old(db.rooms), db.users, userId, roomId).None? && body.None? ==>
      code == 400 && room.None? && db.rooms == old(db.rooms)
    ensures ManageRefusal(old(db.rooms), db.users, userId, roomId).None? && body.Some? ==>
      var i := RoomIndex(old(db.rooms), roomId).value;
      code == 200 && db.rooms == old(db.rooms)[i := ApplyPatch(old(db.rooms)[i], body.value, now)]
      && room == Some(db.rooms[i])
  {
    var refusal := ManageRefusal(db.rooms, db.users, userId, roomId);
    if refusal.Some? {
      return refusal.value, None;
    }
    if body.None? {
      return 400, None;
    }
    room := UpdateRoom(db, roomId, body.value, now);
    code := if room.None? then 500 else 200;
  }

  // ---- refunds ----

  /** What a user has contributed to a room: the sum of their completed
      contributions stored under exactly this room_id. */
  function ContributedTo(cs: seq<Contribution>, roomId: string, userId: string): real
  {
    Sum(Filter(cs, CompletedOf(roomId, userId)))
  }

  /** Both refunds credit only a positive total, and only a user with a wallet. */
  predicate Refunded(wallets: seq<Wallet>, cs: seq<Contribution>, roomId: string, userId: string)
  {
    ContributedTo(cs, roomId, userId) > 0.0 && GetWalletByUserId(wallets, userId).Some?
  }

  /** wallets.update_one({'_id': walletId}, {'$inc': {'balance': amount},
      '$set': {'updated_at': now}}): only the first wallet with that id moves,
      and only its balance and time stamp change, so what it has committed to
      rooms falls by the amount. */
  function RefundWrite(wallets: seq<Wallet>, walletId: string, amount: real, now: Time): (r: seq<Wallet>)
    ensures |r| == |wallets|
    ensures forall i :: 0 <= i < |r| ==> r[i].(balance := wallets[i].balance, updatedAt := wallets[i].updatedAt) == wallets[i]
    ensures IndexOf(wallets, WalletById(walletId)).None? ==> r == wallets
    ensures IndexOf(wallets, WalletById(walletId)).Some? ==>
      var i := IndexOf(wallets, WalletById(walletId)).value;
      r[i].balance == wallets[i].balance + amount && Committed(r[i]) == Committed(wallets[i]) - amount
      && forall j :: 0 <= j < |r| && j != i ==> r[j] == wallets[j]
  {
    match IndexOf(wallets, WalletById(walletId))
    case None => wallets
    case Some(i) => wallets[i := wallets[i].(balance := wallets[i].balance + amount, updatedAt := now)]
  }

  /** The refund transaction inserted as is: completed at once, with the room. */
  function RefundTx(txId: string, userId: string, walletId: string, amount: real, reference: string,
                    description: string, roomId: string, roomName: string, now: Time): WalletTx
  {
    WalletTx(txId, userId, walletId, "refund", amount, TxCompleted, reference, description, Some(roomId),
             Some(roomName), None, now, Some(now))
  }

  /** The ledger after refunding what `userId` contributed to the room. */
  function Refund(l: Ledger, cs: seq<Contribution>, roomId: string, roomName: string, userId: string,
                  reference: string, description: string, txId: string, now: Time): Ledger
  {
    var total := ContributedTo(cs, roomId, userId);
    if total > 0.0 then
      match GetWalletByUserId(l.wallets, userId)
      case None => l
      case Some(w) =>
        Ledger(RefundWrite(l.wallets, w.id, total, now),
               l.txs + [RefundTx(txId, userId, w.id, total, reference, description, roomId, roomName, now)])
    else l
  }

  /** Two wallet collections whose documents differ at most in balance and time stamp. */
  predicate OnlyBalancesMoved(before: seq<Wallet>, after: seq<Wallet>)
  {
    |after| == |before|
    && forall i :: 0 <= i < |after| ==>
         after[i].(balance := before[i].balance, updatedAt := before[i].updatedAt) == before[i]
  }

  /** A refund touches no total, raises the sum of balances by the refunded
      amount exactly when the user is refunded, and appends one completed
      "refund" transaction of that amount; otherwise it changes nothing. */
  lemma RefundEffect(l: Ledger, cs: seq<Contribution>, roomId: string, roomName: string, userId: string,
                     reference: string, description: string, txId: string, now: Time)
    ensures var r := Refund(l, cs, roomId, roomName, userId, reference, description, txId, now);
      OnlyBalancesMoved(l.wallets, r.wallets)
      && SumBy(r.wallets, Balance())
         == SumBy(l.wallets, Balance())
            + (if Refunded(l.wallets, cs, roomId, userId) then ContributedTo(cs, roomId, userId) else 0.0)
      && |r.txs| == |l.txs| + (if Refunded(l.wallets, cs, roomId, userId) then 1 else 0)
      && r.txs[..|l.txs|] == l.txs
      && (Refunded(l.wallets, cs, roomId, userId) ==>
            r.txs[|l.txs|].txType == "refund" && r.txs[|l.txs|].status == TxCompleted
            && r.txs[|l.txs|].userId == userId && r.txs[|l.txs|].amount == ContributedTo(cs, roomId, userId)
            && r.txs[|l.txs|].reference == reference && r.txs[|l.txs|].roomId == Some(roomId))
      && (!Refunded(l.wallets, cs, roomId, userId) ==> r == l)
  {
    RefundRaisesSum(l, cs, roomId, roomName, userId, reference, description, txId, now);
    RefundLogs(l, cs, roomId, roomName, userId, reference, description, txId, now);
  }

  /** A refund raises the sum of balances by the refunded amount, if any. */
  lemma RefundRaisesSum(l: Ledger, cs: seq<Contribution>, roomId: string, roomName: string, userId: string,
                        reference: string, description: string, txId: string, now: Time)
    ensures SumBy(Refund(l, cs, roomId, roomName, userId, reference, description, txId, now).wallets, Balance())
            == SumBy(l.wallets, Balance())
               + (if Refunded(l.wallets, cs, roomId, userId) then ContributedTo(cs, roomId, userId) else 0.0)
  {
    if Refunded(l.wallets, cs, roomId, userId) {
      var w := GetWalletByUserId(l.wallets, userId).value;
      RefundWriteRaisesSum(l.wallets, w, ContributedTo(cs, roomId, userId), now);
    }
  }

  /** Crediting a stored wallet raises the sum of balances by the amount. */
  lemma RefundWriteRaisesSum(wallets: seq<Wallet>, w: Wallet, amount: real, now: Time)
    requires w in wallets
    ensures SumBy(RefundWrite(wallets, w.id, amount, now), Balance()) == SumBy(wallets, Balance()) + amount
  {
    StoredWalletFound(wallets, w);
    var i := IndexOf(wallets, WalletById(w.id)).value;
    SumUpdate(wallets, i, wallets[i].(balance := wallets[i].balance + amount, updatedAt := now), Balance());
  }

  /** A refund moves balances and time stamps only. */
  lemma RefundMovesBalances(l: Ledger, cs: seq<Contribution>, roomId: string, roomName: string, userId: string,
                            reference: string, description: string, txId: string, now: Time)
    ensures OnlyBalancesMoved(l.wallets, Refund(l, cs, roomId, roomName, userId, reference, description, txId,
                                                now).wallets)
  {
  }

  /** A refund keeps the log and appends one completed "refund" exactly when the user is refunded. */
  lemma RefundLogs(l: Ledger, cs: seq<Contribution>, roomId: string, roomName: string, userId: string,
                   reference: string, description: string, txId: string, now: Time)
    ensures var r := Refund(l, cs, roomId, roomName, userId, reference, description, txId, now);
      |r.txs| == |l.txs| + (if Refunded(l.wallets, cs, roomId, userId) then 1 else 0)
      && r.txs[..|l.txs|] == l.txs
      && (Refunded(l.wallets, cs, roomId, userId) ==>
            r.txs[|l.txs|].txType == "refund" && r.txs[|l.txs|].status == TxCompleted)
  {
  }

  /** Wallet collections with the same owners in the same places. */
  predicate SameOwners(a: seq<Wallet>, b: seq<Wallet>)
  {
    |a| == |b| && forall i :: 0 <= i < |a| ==> a[i].userId == b[i].userId
  }

  /** Whether a user is refunded depends on the wallets only through their owners. */
  lemma SameOwnersSameRefunds(a: seq<Wallet>, b: seq<Wallet>, cs: seq<Contribution>, roomId: string, userId: string)
    requires SameOwners(a, b)
    ensures Refunded(a, cs, roomId, userId) == Refunded(b, cs, roomId, userId)
  {
    if GetWalletByUserId(a, userId).Some? {
      var i := IndexOf(a, WalletOf(userId)).value;
      assert b[i].userId == userId;
    }
    if GetWalletByUserId(b, userId).Some? {
      var i := IndexOf(b, WalletOf(userId)).value;
      assert a[i].userId == userId;
    }
  }

  // ---- delete_room ----

  /** The refund of one member of a deleted room. */
  function DeleteRefund(l: Ledger, cs: seq<Contribution>, roomId: string, roomName: string, userId: string,
                        txId: string, now: Time): Ledger
  {
    Refund(l, cs, roomId, roomName, userId, "REF-" + roomId + "-" + userId, "Refund from deleted room: " + roomName,
           txId, now)
  }

  /** The ledger after delete_room's loop over the room's active members. */
  function DeleteRefunds(l: Ledger, active: seq<Member>, cs: seq<Contribution>, roomId: string, roomName: string,
                         txIds: seq<string>, now: Time): Ledger
    requires |txIds| == |active|
    decreases active
  {
    if active == [] then l
    else DeleteRefunds(DeleteRefund(l, cs, roomId, roomName, active[0].userId, txIds[0], now), active[1..], cs,
                       roomId, roomName, txIds[1..], now)
  }

  function RefundedBy(wallets: seq<Wallet>, cs: seq<Contribution>, roomId: string): Member -> bool
  {
    (m: Member) => Refunded(wallets, cs, roomId, m.userId)
  }

  function ContributionOf(cs: seq<Contribution>, roomId: string): Member -> real
  {
    (m: Member) => ContributedTo(cs, roomId, m.userId)
  }

  /** A refund keeps the owners, so it does not change how many others are refunded. */
  lemma OwnersKeepRefundCount(a: seq<Wallet>, b: seq<Wallet>, s: seq<Member>, cs: seq<Contribution>, roomId: string)
    requires SameOwners(a, b)
    ensures Count(s, RefundedBy(b, cs, roomId)) == Count(s, RefundedBy(a, cs, roomId))
  {
    var p, q := RefundedBy(a, cs, roomId), RefundedBy(b, cs, roomId);
    forall k | 0 <= k < |s| ensures q(s[k]) == p(s[k]) {
      SameOwnersSameRefunds(a, b, cs, roomId, s[k].userId);
    }
    CountSame(s, q, p);
  }

  /** Nor which others are refunded. */
  lemma OwnersKeepRefunded(a: seq<Wallet>, b: seq<Wallet>, s: seq<Member>, cs: seq<Contribution>, roomId: string)
    requires SameOwners(a, b)
    ensures Filter(s, RefundedBy(b, cs, roomId)) == Filter(s, RefundedBy(a, cs, roomId))
  {
    var p, q := RefundedBy(a, cs, roomId), RefundedBy(b, cs, roomId);
    forall k | 0 <= k < |s| ensures q(s[k]) == p(s[k]) {
      SameOwnersSameRefunds(a, b, cs, roomId, s[k].userId);
    }
    FilterSame(s, q, p);
  }

  lemma MovedKeepsOwners(a: seq<Wallet>, b: seq<Wallet>)
    requires OnlyBalancesMoved(a, b)
    ensures SameOwners(a, b)
  {
    forall i | 0 <= i < |a| ensures a[i].userId == b[i].userId {
      assert b[i].(balance := a[i].balance, updatedAt := a[i].updatedAt) == a[i];
    }
  }

  /** delete_room's refunds move balances and time stamps only. */
  lemma {:induction false} DeleteRefundsKeepAccounts(l: Ledger, active: seq<Member>, cs: seq<Contribution>,
                                                     roomId: string, roomName: string, txIds: seq<string>, now: Time)
    requires |txIds| == |active|
    ensures OnlyBalancesMoved(l.wallets, DeleteRefunds(l, active, cs, roomId, roomName, txIds, now).wallets)
    decreases active
  {
    if active != [] {
      var m := active[0];
      var l' := DeleteRefund(l, cs, roomId, roomName, m.userId, txIds[0], now);
      RefundMovesBalances(l, cs, roomId, roomName, m.userId, "REF-" + roomId + "-" + m.userId,
                   "Refund from deleted room: " + roomName, txIds[0], now);
      DeleteRefundsKeepAccounts(l', active[1..], cs, roomId, roomName, txIds[1..], now);
      var r := DeleteRefunds(l', active[1..], cs, roomId, roomName, txIds[1..], now);
      forall i | 0 <= i < |r.wallets|
        ensures r.wallets[i].(balance := l.wallets[i].balance, updatedAt := l.wallets[i].updatedAt) == l.wallets[i]
      {
        assert r.wallets[i].(balance := l'.wallets[i].balance, updatedAt := l'.wallets[i].updatedAt) == l'.wallets[i];
        assert l'.wallets[i].(balance := l.wallets[i].balance, updatedAt := l.wallets[i].updatedAt) == l.wallets[i];
      }
    }
  }

  /** delete_room's refunds append one completed "refund" transaction per
      refunded member after the existing log. */
  lemma {:induction false} DeleteRefundsLog(l: Ledger, active: seq<Member>, cs: seq<Contribution>, roomId: string,
                                            roomName: string, txIds: seq<string>, now: Time)
    requires |txIds| == |active|
    ensures var r := DeleteRefunds(l, active, cs, roomId, roomName, txIds, now);
      |r.txs| == |l.txs| + Count(active, RefundedBy(l.wallets, cs, roomId))
      && r.txs[..|l.txs|] == l.txs
    decreases active
  {
    if active != [] {
      var m := active[0];
      var ref, desc := "REF-" + roomId + "-" + m.userId, "Refund from deleted room: " + roomName;
      var l' := DeleteRefund(l, cs, roomId, roomName, m.userId, txIds[0], now);
      RefundLogs(l, cs, roomId, roomName, m.userId, ref, desc, txIds[0], now);
      RefundMovesBalances(l, cs, roomId, roomName, m.userId, ref, desc, txIds[0], now);
      MovedKeepsOwners(l.wallets, l'.wallets);
      OwnersKeepRefundCount(l.wallets, l'.wallets, active[1..], cs, roomId);
      DeleteRefundsLog(l', active[1..], cs, roomId, roomName, txIds[1..], now);
      var p := RefundedBy(l.wallets, cs, roomId);
      assert Count(active, p) == (if p(m) then 1 else 0) + Count(active[1..], p);
      var r := DeleteRefunds(l', active[1..], cs, roomId, roomName, txIds[1..], now);
      assert r.txs[..|l.txs|] == r.txs[..|l'.txs|][..|l.txs|];
    }
  }

  /** Every transaction delete_room's refunds add is a completed "refund". */
  predicate RefundsAfter(txs: seq<WalletTx>, n: nat)
  {
    forall k :: n <= k < |txs| ==> txs[k].txType == "refund" && txs[k].status == TxCompleted
  }

  lemma {:induction false} DeleteRefundsAreRefunds(l: Ledger, active: seq<Member>, cs: seq<Contribution>,
                                                   roomId: string, roomName: string, txIds: seq<string>, now: Time)
    requires |txIds| == |active|
    ensures RefundsAfter(DeleteRefunds(l, active, cs, roomId, roomName, txIds, now).txs, |l.txs|)
    decreases active
  {
    if active != [] {
      var m := active[0];
      var l' := DeleteRefund(l, cs, roomId, roomName, m.userId, txIds[0], now);
      RefundLogs(l, cs, roomId, roomName, m.userId, "REF-" + roomId + "-" + m.userId,
                   "Refund from deleted room: " + roomName, txIds[0], now);
      DeleteRefundsAreRefunds(l', active[1..], cs, roomId, roomName, txIds[1..], now);
      DeleteRefundsLog(l', active[1..], cs, roomId, roomName, txIds[1..], now);
      var r := DeleteRefunds(l', active[1..], cs, roomId, roomName, txIds[1..], now);
      forall k | |l.txs| <= k < |r.txs| ensures r.txs[k].txType == "refund" && r.txs[k].status == TxCompleted {
        if k < |l'.txs| {
          assert r.txs[k] == r.txs[..|l'.txs|][k] == l'.txs[k];
        }
      }
    }
  }

  /** delete_room's refunds raise the sum of balances by exactly what the
      refunded members contributed. */
  lemma {:induction false} DeleteRefundsTotal(l: Ledger, active: seq<Member>, cs: seq<Contribution>, roomId: string,
                                              roomName: string, txIds: seq<string>, now: Time)
    requires |txIds| == |active|
    ensures SumBy(DeleteRefunds(l, active, cs, roomId, roomName, txIds, now).wallets, Balance())
            == SumBy(l.wallets, Balance())
               + SumBy(Filter(active, RefundedBy(l.wallets, cs, roomId)), ContributionOf(cs, roomId))
    decreases active
  {
    if active != [] {
      var m := active[0];
      var ref, desc := "REF-" + roomId + "-" + m.userId, "Refund from deleted room: " + roomName;
      var l' := DeleteRefund(l, cs, roomId, roomName, m.userId, txIds[0], now);
      RefundRaisesSum(l, cs, roomId, roomName, m.userId, ref, desc, txIds[0], now);
      RefundMovesBalances(l, cs, roomId, roomName, m.userId, ref, desc, txIds[0], now);
      MovedKeepsOwners(l.wallets, l'.wallets);
      OwnersKeepRefunded(l.wallets, l'.wallets, active[1..], cs, roomId);
      DeleteRefundsTotal(l', active[1..], cs, roomId, roomName, txIds[1..], now);
      SumFilterHead(active, RefundedBy(l.wallets, cs, roomId), ContributionOf(cs, roomId));
    }
  }

  /** One member's refund, as the loop bodies of delete_room and leave_room do it. */
  method RefundMember(db: Db, userId: string, roomId: string, roomName: string, reference: string,
                      description: string, txId: string, now: Time) returns (refunded: bool)
    modifies db`wallets, db`transactions
    ensures Ledger(db.wallets, db.transactions)
            == Refund(Ledger(old(db.wallets), old(db.transactions)), db.contributions, roomId, roomName, userId,
                      reference, description, txId, now)
    ensures refunded == Refunded(old(db.wallets), db.contributions, roomId, userId)
  {
    var total := ContributedTo(db.contributions, roomId, userId);
    refunded := false;
    if total > 0.0 {
      var wallet := GetWalletByUserId(db.wallets, userId);
      if wallet.Some? {
        var w := wallet.value;
        db.wallets := RefundWrite(db.wallets, w.id, total, now);
        db.transactions := db.transactions + [RefundTx(txId, userId, w.id, total, reference, description, roomId,
                                                       roomName, now)];
        refunded := true;
      }
    }
  }

  /** One iteration of delete_room's refund loop. */
  method RefundDeleted(db: Db, userId: string, roomId: string, roomName: string, txId: string, now: Time)
    returns (refunded: bool)
    modifies db`wallets, db`transactions
    ensures Ledger(db.wallets, db.transactions)
            == DeleteRefund(Ledger(old(db.wallets), old(db.transactions)), db.contributions, roomId, roomName, userId,
                            txId, now)
    ensures refunded == Refunded(old(db.wallets), db.contributions, roomId, userId)
    ensures SameOwners(old(db.wallets), db.wallets)
  {
    RefundMovesBalances(Ledger(db.wallets, db.transactions), db.contributions, roomId, roomName, userId,
                        "REF-" + roomId + "-" + userId, "Refund from deleted room: " + roomName, txId, now);
    MovedKeepsOwners(db.wallets, DeleteRefund(Ledger(db.wallets, db.transactions), db.contributions, roomId,
                                              roomName, userId, txId, now).wallets);
    refunded := RefundMember(db, userId, roomId, roomName, "REF-" + roomId + "-" + userId,
                             "Refund from deleted room: " + roomName, txId, now);
  }

  /** delete_room's refund loop; the count is refunded_count. */
  method RefundMembers(db: Db, active: seq<Member>, roomId: string, roomName: string, txIds: seq<string>, now: Time)
    returns (count: nat)
    requires |txIds| == |active|
    modifies db`wallets, db`transactions
    ensures Ledger(db.wallets, db.transactions)
            == DeleteRefunds(Ledger(old(db.wallets), old(db.transactions)), active, db.contributions, roomId, roomName,
                             txIds, now)
    ensures count == Count(active, RefundedBy(old(db.wallets), db.contributions, roomId))
  {
    count := 0;
    for i := 0 to |active|
      invariant DeleteRefunds(Ledger(db.wallets, db.transactions), active[i..], db.contributions, roomId, roomName,
                              txIds[i..], now)
                == DeleteRefunds(Ledger(old(db.wallets), old(db.transactions)), active, db.contributions, roomId,
                                 roomName, txIds, now)
      invariant SameOwners(old(db.wallets), db.wallets)
      invariant count == Count(active[..i], RefundedBy(old(db.wallets), db.contributions, roomId))
    {
      assert active[i..][1..] == active[i + 1..];
      assert txIds[i..][1..] == txIds[i + 1..];
      ghost var before := db.wallets;
      var refunded := RefundDeleted(db, active[i].userId, roomId, roomName, txIds[i], now);
      SameOwnersSameRefunds(old(db.wallets), before, db.contributions, roomId, active[i].userId);
      assert active[..i + 1] == active[..i] + [active[i]];
      CountAppend(active[..i], active[i], RefundedBy(old(db.wallets), db.contributions, roomId));
      if refunded {
        count := count + 1;
      }
    }
    assert active[..|active|] == active;
  }

  /** delete_room: after the shared refusals, every active member stored under
      this room_id is refunded what they contributed, then the room and its
      member records are deleted; 200 with the number of members refunded. */
  method DeleteRoomRoute(db: Db, userId: Option<string>, roomId: string, mint: nat -> string, now: Time)
    returns (code: int, refundedCount: nat)
    requires db.Valid()
    modifies db`rooms, db`members, db`wallets, db`transactions
    ensures db.Valid()
    ensures ManageRefusal(old(db.rooms), db.users, userId, roomId).Some? ==>
      code == ManageRefusal(old(db.rooms), db.users, userId, roomId).value && refundedCount == 0
      && db.rooms == old(db.rooms) && db.members == old(db.members)
      && db.wallets == old(db.wallets) && db.transactions == old(db.transactions)
    ensures ManageRefusal(old(db.rooms), db.users, userId, roomId).None? ==>
      var active := Filter(old(db.members), ActiveIn(roomId));
      code == 200
      && Ledger(db.wallets, db.transactions)
         == DeleteRefunds(Ledger(old(db.wallets), old(db.transactions)), active, db.contributions, roomId,
                          FindRoom(old(db.rooms), roomId).value.name, TxIds(mint, |active|), now)
      && refundedCount == Count(active, RefundedBy(old(db.wallets), db.contributions, roomId))
      && db.rooms == RemoveAt(old(db.rooms), RoomIndex(old(db.rooms), roomId).value)
      && db.members == Filter(old(db.members), StoredUnder(roomId))
  {
    var refusal := ManageRefusal(db.rooms, db.users, userId, roomId);
    if refusal.Some? {
      return refusal.value, 0;
    }
    var active := Filter(db.members, ActiveIn(roomId));
    code, refundedCount := RefundAndDelete(db, db.users[userId.value], roomId, active, mint, now);
  }

  /** The part of delete_room after its refusals; `active` is the room's
      active member records, as find({'room_id', 'status': 'active'}) lists them. */
  method RefundAndDelete(db: Db, uid: string, roomId: string, active: seq<Member>, mint: nat -> string, now: Time)
    returns (code: int, refundedCount: nat)
    requires db.Valid()
    requires FindRoom(db.rooms, roomId).Some? && FindRoom(db.rooms, roomId).value.creatorId == uid
    modifies db`rooms, db`members, db`wallets, db`transactions
    ensures db.Valid()
    ensures code == 200
    ensures Ledger(db.wallets, db.transactions)
            == DeleteRefunds(Ledger(old(db.wallets), old(db.transactions)), active, db.contributions, roomId,
                             FindRoom(old(db.rooms), roomId).value.name, TxIds(mint, |active|), now)
    ensures refundedCount == Count(active, RefundedBy(old(db.wallets), db.contributions, roomId))
    ensures db.rooms == RemoveAt(old(db.rooms), RoomIndex(old(db.rooms), roomId).value)
    ensures db.members == Filter(old(db.members), StoredUnder(roomId))
  {
    var name := FindRoom(db.rooms, roomId).value.name;
    refundedCount := RefundMembers(db, active, roomId, name, TxIds(mint, |active|), now);
    var ok := DeleteRoom(db, roomId, uid);
    code := if ok then 200 else 500;
  }

  // ---- join_room and join_room_by_code ----

  /** join_room's room_id: used as it is when it parses as an ObjectId,
      otherwise looked up as a room code and replaced by that room's id; None
      (404) when no room has that code. */
  function ResolveRoomId(rooms: seq<Room>, roomId: string): (r: Option<string>)
    ensures IsObjectId(roomId) ==> r == Some(roomId)
    ensures !IsObjectId(roomId) ==> (r.Some? <==> exists i :: 0 <= i < |rooms| && rooms[i].roomCode == roomId)
    ensures !IsObjectId(roomId) && r.Some? ==>
      exists i :: 0 <= i < |rooms| && rooms[i].roomCode == roomId && rooms[i].id == r.value
  {
    if IsObjectId(roomId) then Some(roomId)
    else match GetRoomByCode(rooms, roomId)
      case None => None
      case Some(room) => Some(room.id)
  }

  /** A room code sent to join_room reaches the room join_room_by_code finds. */
  lemma JoinByIdAcceptsCodes(rooms: seq<Room>, code: string)
    requires IsRoomCode(code)
    ensures ResolveRoomId(rooms, code)
            == match GetRoomByCode(rooms, code) case None => None case Some(room) => Some(room.id)
  {
    RoomCodeIsNotObjectId(code);
  }

  /** join_room: 404 without an identity or account, or for an unknown code;
      otherwise the caller is added to the resolved room (200) or refused
      with 400 when add_room_member fails. */
  method JoinRoomRoute(db: Db, userId: Option<string>, roomId: string, memberId: string, now: Time)
    returns (code: int, member: Option<Member>)
    requires db.Valid()
    modifies db`rooms, db`members
    ensures db.Valid()
    ensures CallerId(db.users, userId).None? || ResolveRoomId(old(db.rooms), roomId).None? ==>
      code == 404 && member.None? && db.rooms == old(db.rooms) && db.members == old(db.members)
    ensures CallerId(db.users, userId).Some? && ResolveRoomId(old(db.rooms), roomId).Some? ==>
      var uid, rid := CallerId(db.users, userId).value, ResolveRoomId(old(db.rooms), roomId).value;
      (member.Some? <==> CanAdd(old(db.rooms), old(db.members), rid, uid))
      && (member.Some? ==>
            code == 200 && member.value == Member(memberId, rid, uid, 0.0, false, now, Active)
            && db.members == old(db.members) + [member.value] && db.rooms == BumpMembers(old(db.rooms), rid, 1))
      && (member.None? ==> code == 400 && db.rooms == old(db.rooms) && db.members == old(db.members))
  {
    var caller := CallerId(db.users, userId);
    if caller.None? {
      return 404, None;
    }
    var resolved := ResolveRoomId(db.rooms, roomId);
    if resolved.None? {
      return 404, None;
    }
    member := AddRoomMember(db, resolved.value, caller.value, false, memberId, now);
    code := if member.None? then 400 else 200;
  }

  /** The refusals of join_room_by_code in its order: no identity (404), no
      room_code (400), no account (404), no room with that code (404). */
  function JoinByCodeRefusal(rooms: seq<Room>, users: map<string, string>, userId: Option<string>,
                             roomCode: Option<string>): (r: Option<int>)
    ensures r.None? <==>
      CallerId(users, userId).Some? && roomCode.Some? && GetRoomByCode(rooms, roomCode.value).Some?
    ensures r == Some(400) <==> Truthy(userId) && roomCode.None?
    ensures r.Some? ==> r.value == 400 || r.value == 404
  {
    if !Truthy(userId) then Some(404)
    else if roomCode.None? then Some(400)
    else if userId.value !in users then Some(404)
    else if GetRoomByCode(rooms, roomCode.value).None? then Some(404)
    else None
  }

  /** join_room_by_code: the caller is added to the room with that code. */
  method JoinByCodeRoute(db: Db, userId: Option<string>, roomCode: Option<string>, memberId: string, now: Time)
    returns (code: int, room: Option<Room>, member: Option<Member>)
    requires db.Valid()
    modifies db`rooms, db`members
    ensures db.Valid()
    ensures JoinByCodeRefusal(old(db.rooms), db.users, userId, roomCode).Some? ==>
      code == JoinByCodeRefusal(old(db.rooms), db.users, userId, roomCode).value && member.None?
      && db.rooms == old(db.rooms) && db.members == old(db.members)
    ensures JoinByCodeRefusal(old(db.rooms), db.users, userId, roomCode).None? ==>
      var uid, target := db.users[userId.value], GetRoomByCode(old(db.rooms), roomCode.value).value;
      room == Some(target)
      && (member.Some? <==> CanAdd(old(db.rooms), old(db.members), target.id, uid))
      && (member.Some? ==>
            code == 200 && member.value == Member(memberId, target.id, uid, 0.0, false, now, Active)
            && db.members == old(db.members) + [member.value]
            && db.rooms == BumpMembers(old(db.rooms), target.id, 1))
      && (member.None? ==> code == 400 && db.rooms == old(db.rooms) && db.members == old(db.members))
  {
    var refusal := JoinByCodeRefusal(db.rooms, db.users, userId, roomCode);
    if refusal.Some? {
      return refusal.value, None, None;
    }
    room := GetRoomByCode(db.rooms, roomCode.value);
    member := AddRoomMember(db, room.value.id, db.users[userId.value], false, memberId, now);
    code := if member.None? then 400 else 200;
  }

  // ---- leave_room ----

  /** The refund of a member leaving the room. */
  function LeaveRefund(l: Ledger, cs: seq<Contribution>, roomId: string, roomName: string, userId: string,
                       txId: string, now: Time): Ledger
  {
    Refund(l, cs, roomId, roomName, userId, "REF-LEAVE-" + roomId + "-" + userId,
           "Refund from leaving room: " + roomName, txId, now)
  }

  /** The status leave_room answers once the refund has been written, as
      intended: 200 when the member record was set to "left", 400 otherwise. */
  function LeaveStatus(removed: bool): (code: int)
    ensures code == 200 || code == 400
    ensures code == 200 <==> removed
  {
    if removed then 200 else 400
  }

  /** The status as written: after a refund the success message calls
      formatMoney, a name the module never defines; the NameError is caught
      and answered with 500. */
  function LeaveStatusAsWritten(removed: bool, refunded: bool): int
  {
    if !removed then 400 else if refunded then 500 else 200
  }

  /** As written, a member who is refunded and removed is told the request
      failed (500), though the credit and the refund transaction were written;
      the corrected status is 200. */
  lemma LeaveAsWrittenFailsAfterRefund(l: Ledger, cs: seq<Contribution>, roomId: string, roomName: string,
                                       userId: string, txId: string, now: Time)
    requires Refunded(l.wallets, cs, roomId, userId)
    ensures LeaveStatusAsWritten(true, true) == 500 && LeaveStatus(true) == 200
    ensures |LeaveRefund(l, cs, roomId, roomName, userId, txId, now).txs| == |l.txs| + 1
    ensures SumBy(LeaveRefund(l, cs, roomId, roomName, userId, txId, now).wallets, Balance())
            > SumBy(l.wallets, Balance())
  {
    RefundEffect(l, cs, roomId, roomName, userId, "REF-LEAVE-" + roomId + "-" + userId,
                 "Refund from leaving room: " + roomName, txId, now);
  }

  /** Leaving marks nothing as refunded: the contributions stay completed, so
      a second leave_room (answered 400 once the record is "left") credits the
      same amount again. */
  lemma LeaveAgainRefundsAgain(l: Ledger, cs: seq<Contribution>, roomId: string, roomName: string, userId: string,
                               t1: string, t2: string, now: Time)
    requires Refunded(l.wallets, cs, roomId, userId)
    ensures var l1 := LeaveRefund(l, cs, roomId, roomName, userId, t1, now);
      Refunded(l1.wallets, cs, roomId, userId)
      && SumBy(LeaveRefund(l1, cs, roomId, roomName, userId, t2, now).wallets, Balance())
         == SumBy(l.wallets, Balance()) + 2.0 * ContributedTo(cs, roomId, userId)
  {
    var ref, desc := "REF-LEAVE-" + roomId + "-" + userId, "Refund from leaving room: " + roomName;
    RefundEffect(l, cs, roomId, roomName, userId, ref, desc, t1, now);
    var l1 := LeaveRefund(l, cs, roomId, roomName, userId, t1, now);
    SameOwnersSameRefunds(l.wallets, l1.wallets, cs, roomId, userId);
    RefundEffect(l1, cs, roomId, roomName, userId, ref, desc, t2, now);
  }

  /** A member who has left cannot leave again: the record is found "left". */
  lemma LeftMemberCannotLeave(rooms: seq<Room>, members: seq<Member>, roomId: string, userId: string)
    requires CanRemove(rooms, members, roomId, userId)
    ensures var k := IndexOf(members, MemberOf(roomId, userId)).value;
      !CanRemove(BumpMembers(rooms, roomId, -1), members[k := members[k].(status := Left)], roomId, userId)
  {
    var k := IndexOf(members, MemberOf(roomId, userId)).value;
    IndexOfAt(members[k := members[k].(status := Left)], MemberOf(roomId, userId), k);
  }

  /** leave_room: after its refusals the caller is refunded what they
      contributed (if positive and they have a wallet), and only then is the
      member record set to "left"; a removal that fails answers 400 and keeps
      the credit. The status is the corrected one (200 on removal). */
  method LeaveRoomRoute(db: Db, userId: Option<string>, roomId: string, txId: string, now: Time)
    returns (code: int, refunded: bool)
    requires db.Valid()
    modifies db`rooms, db`members, db`wallets, db`transactions
    ensures db.Valid()
    ensures LeaveRefusal(old(db.rooms), db.users, userId, roomId).Some? ==>
      code == LeaveRefusal(old(db.rooms), db.users, userId, roomId).value && !refunded
      && db.rooms == old(db.rooms) && db.members == old(db.members)
      && db.wallets == old(db.wallets) && db.transactions == old(db.transactions)
    ensures LeaveRefusal(old(db.rooms), db.users, userId, roomId).None? ==>
      var uid := db.users[userId.value];
      Ledger(db.wallets, db.transactions)
      == LeaveRefund(Ledger(old(db.wallets), old(db.transactions)), db.contributions, roomId,
                     FindRoom(old(db.rooms), roomId).value.name, uid, txId, now)
      && refunded == Refunded(old(db.wallets), db.contributions, roomId, uid)
      && code == LeaveStatus(CanRemove(old(db.rooms), old(db.members), roomId, uid))
      && (CanRemove(old(db.rooms), old(db.members), roomId, uid) ==>
            var k := IndexOf(old(db.members), MemberOf(roomId, uid)).value;
            db.members == old(db.members)[k := old(db.members)[k].(status := Left)]
            && db.rooms == BumpMembers(old(db.rooms), roomId, -1))
      && (!CanRemove(old(db.rooms), old(db.members), roomId, uid) ==>
            db.rooms == old(db.rooms) && db.members == old(db.members))
  {
    var refusal := LeaveRefusal(db.rooms, db.users, userId, roomId);
    if refusal.Some? {
      return refusal.value, false;
    }
    code, refunded := RefundAndLeave(db, db.users[userId.value], roomId, txId, now);
  }

  /** The part of leave_room after its refusals. */
  method RefundAndLeave(db: Db, uid: string, roomId: string, txId: string, now: Time)
    returns (code: int, refunded: bool)
    requires db.Valid()
    requires FindRoom(db.rooms, roomId).Some?
    modifies db`rooms, db`members, db`wallets, db`transactions
    ensures db.Valid()
    ensures Ledger(db.wallets, db.transactions)
            == LeaveRefund(Ledger(old(db.wallets), old(db.transactions)), db.contributions, roomId,
                           FindRoom(old(db.rooms), roomId).value.name, uid, txId, now)
    ensures refunded == Refunded(old(db.wallets), db.contributions, roomId, uid)
    ensures code == LeaveStatus(CanRemove(old(db.rooms), old(db.members), roomId, uid))
    ensures CanRemove(old(db.rooms), old(db.members), roomId, uid) ==>
      var k := IndexOf(old(db.members), MemberOf(roomId, uid)).value;
      db.members == old(db.members)[k := old(db.members)[k].(status := Left)]
      && db.rooms == BumpMembers(old(db.rooms), roomId, -1)
    ensures !CanRemove(old(db.rooms), old(db.members), roomId, uid) ==>
      db.rooms == old(db.rooms) && db.members == old(db.members)
  {
    var name := FindRoom(db.rooms, roomId).value.name;
    ghost var rooms, members := db.rooms, db.members;
    refunded := RefundMember(db, uid, roomId, name, "REF-LEAVE-" + roomId + "-" + uid,
                             "Refund from leaving room: " + name, txId, now);
    assert db.rooms == rooms && db.members == members;
    ghost var ledger := Ledger(db.wallets, db.transactions);
    var ok := RemoveRoomMember(db, roomId, uid);
    assert Ledger(db.wallets, db.transactions) == ledger;
    code := LeaveStatus(ok);
  }
}
