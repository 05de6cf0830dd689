/**
 * The contribution endpoints: a caller contributes from their wallet to a
 * room, and lists contributions, either their own or, when a room_id is
 * given, every contribution of that room.
 */
module ContributionRoutes {
  import opened Base
  import opened Seqs
  import opened Store
  import opened RoomService
  import opened WalletService
  import opened ContributionService

  // ---- create_contribution ----

  /** The refusals of create_contribution in the order it makes them: a
      missing room_id or amount, and an amount out of range, are answered
      before the caller is looked up. */
  function ContributeRefusal(users: map<string, string>, userId: Option<string>, roomId: Option<string>,
                             amount: Option<real>): (r: Option<int>)
    ensures r.None? <==> CallerId(users, userId).Some? && roomId.Some? && amount.Some? && AmountInRange(amount.value)
    ensures r == Some(400) <==> Truthy(userId) && (roomId.None? || amount.None? || !AmountInRange(amount.value))
    ensures r == Some(404) <==>
      !Truthy(userId) || (roomId.Some? && amount.Some? && AmountInRange(amount.value) && userId.value !in users)
  {
    if !Truthy(userId) then Some(404)
    else if roomId.None? || amount.None? then Some(400)
    else if !AmountInRange(amount.value) then Some(400)
    else if userId.value !in users then Some(404)
    else None
  }

  /** The ContributionCreate the route builds: the caller's database id, a
      "TXN-" transaction id and payment method "wallet". */
  function ContributionRequest(uid: string, roomId: string, amount: real, hex: string): (d: ContributionCreate)
    requires |hex| >= 8 && forall i :: 0 <= i < |hex| ==> IsHexDigit(hex[i])
    ensures d.userId == uid && d.roomId == roomId && d.amount == amount && d.paymentMethod == "wallet"
    ensures |d.transactionId| == 12 && d.transactionId[..4] == "TXN-"
    ensures forall i :: 4 <= i < 12 ==> ('0' <= d.transactionId[i] <= '9') || ('A' <= d.transactionId[i] <= 'F')
  {
    ContributionCreate(roomId, uid, amount, HexReference("TXN-", hex), "wallet")
  }

  /** create_contribution: 201 with the completed contribution when the room is
      open and the caller's wallet covers the amount, in which case the wallet
      is debited and the room's collected amount raised; 500 with nothing
      written otherwise. */
  method CreateContributionRoute(db: Db, userId: Option<string>, roomId: Option<string>, amount: Option<real>,
                                 hex: string, id: string, txId: string, now: Time)
    returns (code: int, r: Option<Contribution>)
    requires db.Valid()
    requires |hex| >= 8 && forall i :: 0 <= i < |hex| ==> IsHexDigit(hex[i])
    requires forall k :: 0 <= k < |db.contributions| ==> db.contributions[k].id != id
    modifies db`wallets, db`transactions, db`rooms, db`contributions
    ensures db.Valid()
    ensures ContributeRefusal(db.users, userId, roomId, amount).Some? ==>
      code == ContributeRefusal(db.users, userId, roomId, amount).value && r.None?
      && db.wallets == old(db.wallets) && db.transactions == old(db.transactions)
      && db.rooms == old(db.rooms) && db.contributions == old(db.contributions)
    ensures ContributeRefusal(db.users, userId, roomId, amount).None? ==>
      var data := ContributionRequest(db.users[userId.value], roomId.value, amount.value, hex);
      && (!CanContribute(old(db.rooms), old(db.wallets), data) ==>
            code == 500 && r.None? && db.wallets == old(db.wallets) && db.transactions == old(db.transactions)
            && db.rooms == old(db.rooms) && db.contributions == old(db.contributions))
      && (CanContribute(old(db.rooms), old(db.wallets), data) ==>
            code == 201
            && r == Some(Contribution(id, data.roomId, data.userId, data.amount, Completed, data.transactionId,
                                      data.paymentMethod, None, now, Some(now)))
            && db.contributions == old(db.contributions) + [r.value]
            && db.wallets == BalanceWrite(old(db.wallets), GetWalletByUserId(old(db.wallets), data.userId).value.id,
                                          data.amount, "contribution", now)
            && db.transactions == LogCompleted(old(db.transactions),
                 NewTx(txId, ContributionTx(r.value, GetWalletByUserId(old(db.wallets), data.userId).value), now), now)
            && db.rooms == CollectedWrite(old(db.rooms), data.roomId, data.amount, now))
  {
    var refusal := ContributeRefusal(db.users, userId, roomId, amount);
    if refusal.Some? {
      return refusal.value, None;
    }
    var data := ContributionRequest(db.users[userId.value], roomId.value, amount.value, hex);
    r := CreateContribution(db, data, id, txId, now);
    code := if r.None? then 500 else 201;
  }

  // ---- get_contributions ----

  /** get_contributions: with a non-empty room_id, the room's contributions
      (anyone's, and the status argument is not applied); otherwise the
      caller's own, of the status when one is given. Limit defaults to 50 and
      skip to 0; count is the length of the page. */
  function ContributionsPage(cs: seq<Contribution>, users: map<string, string>, userId: Option<string>,
                             limit: Option<int>, skip: Option<int>, status: Option<string>, roomId: Option<string>)
    : (p: Listing<Contribution>)
    ensures p.PageError? <==> CallerId(users, userId).None?
    ensures p.PageError? ==> p.code == 404
    ensures p.Listed? ==> p.limit == ArgOr(limit, 50) && p.skip == ArgOr(skip, 0) && p.count == |p.items|
    ensures p.Listed? && Truthy(roomId) ==>
      p.items == GetRoomContributions(cs, roomId.value, p.limit, p.skip)
      && forall i :: 0 <= i < |p.items| ==> p.items[i] in cs && p.items[i].roomId == roomId.value
    ensures p.Listed? && !Truthy(roomId) ==>
      p.items == GetUserContributions(cs, users[userId.value], p.limit, p.skip, status)
      && forall i :: 0 <= i < |p.items| ==> p.items[i] in cs && p.items[i].userId == users[userId.value]
    ensures p.Listed? && limit.None? ==> |p.items| <= 50
  {
    match CallerId(users, userId)
    case None => PageError(404)
    case Some(uid) =>
      var l, s := ArgOr(limit, 50), ArgOr(skip, 0);
      var items := if Truthy(roomId) then GetRoomContributions(cs, roomId.value, l, s)
                   else GetUserContributions(cs, uid, l, s, status);
      Listed(items, l, s, |items|)
  }

  /** With a room_id the status argument makes no difference to the page. */
  lemma RoomPageIgnoresStatus(cs: seq<Contribution>, users: map<string, string>, userId: Option<string>,
                              limit: Option<int>, skip: Option<int>, s1: Option<string>, s2: Option<string>,
                              roomId: Option<string>)
    requires Truthy(roomId)
    ensures ContributionsPage(cs, users, userId, limit, skip, s1, roomId)
            == ContributionsPage(cs, users, userId, limit, skip, s2, roomId)
  {
  }

  /** An empty room_id is no room_id: the caller's own contributions are listed. */
  lemma EmptyRoomIdListsOwn(cs: seq<Contribution>, users: map<string, string>, userId: Option<string>,
                            limit: Option<int>, skip: Option<int>, status: Option<string>)
    ensures ContributionsPage(cs, users, userId, limit, skip, status, Some(""))
            == ContributionsPage(cs, users, userId, limit, skip, status, None)
  {
  }
}
