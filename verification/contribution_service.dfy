/**
 * ContributionService: a member pays from their wallet into a room. The
 * service inserts a pending contribution, debits the wallet, logs a completed
 * wallet transaction, adds the amount to the room and completes the
 * contribution, or re-credits the wallet when the room cannot be updated.
 */
module ContributionService {
  import opened Base
  import opened Seqs
  import opened Store
  import opened RoomService
  import opened WalletService

  function StatusName(s: ContributionStatus): string
  {
    match s
    case Pending => "pending"
    case Completed => "completed"
    case Failed => "failed"
  }

  // ---- update_contribution_status ----

  /** The $set of update_contribution_status: failure_reason only when a truthy
      one is given, completed_at only for "completed". */
  function WithContributionStatus(c: Contribution, status: ContributionStatus, reason: Option<string>, now: Time)
    : (r: Contribution)
    ensures r.status == status
    ensures Truthy(reason) ==> r.failureReason == reason
    ensures !Truthy(reason) ==> r.failureReason == c.failureReason
    ensures status == Completed ==> r.completedAt == Some(now)
    ensures status != Completed ==> r.completedAt == c.completedAt
    ensures r.(status := c.status, failureReason := c.failureReason, completedAt := c.completedAt) == c
  {
    var c' := c.(status := status, failureReason := if Truthy(reason) then reason else c.failureReason);
    if status == Completed then c'.(completedAt := Some(now)) else c'
  }

  /** The contributions collection after update_contribution_status. */
  function StatusWrite(cs: seq<Contribution>, id: string, status: ContributionStatus, reason: Option<string>, now: Time)
    : seq<Contribution>
  {
    match IndexOf(cs, ContributionById(id))
    case None => cs
    case Some(i) => cs[i := WithContributionStatus(cs[i], status, reason, now)]
  }

  /** update_contribution_status: true iff the contribution exists and the $set changed it. */
  method UpdateContributionStatus(db: Db, id: string, status: ContributionStatus, reason: Option<string>, now: Time)
    returns (ok: bool)
    modifies db`contributions
    ensures db.contributions == StatusWrite(old(db.contributions), id, status, reason, now)
    ensures var i := IndexOf(old(db.contributions), ContributionById(id));
      ok <==> i.Some? && WithContributionStatus(old(db.contributions)[i.value], status, reason, now) != old(db.contributions)[i.value]
  {
    var i := IndexOf(db.contributions, ContributionById(id));
    if i.None? {
      return false;
    }
    var c := db.contributions[i.value];
    var c' := WithContributionStatus(c, status, reason, now);
    db.contributions := db.contributions[i.value := c'];
    ok := c' != c;
  }

  // ---- reads ----

  function CreatedAt(): Contribution -> int
  {
    (c: Contribution) => c.createdAt
  }

  function UserFilter(userId: string, status: Option<string>): Contribution -> bool
  {
    (c: Contribution) => c.userId == userId && (Truthy(status) ==> StatusName(c.status) == status.value)
  }

  /** get_user_contributions: the user's contributions (with that status, when a
      non-empty one is given), newest first, after skip, at most |limit|. */
  function GetUserContributions(cs: seq<Contribution>, userId: string, limit: int, skip: int, status: Option<string>)
    : (r: seq<Contribution>)
    ensures forall i :: 0 <= i < |r| ==> r[i] in cs && r[i].userId == userId
    ensures Truthy(status) ==> forall i :: 0 <= i < |r| ==> StatusName(r[i].status) == status.value
    ensures forall i, j :: 0 <= i < j < |r| ==> r[i].createdAt >= r[j].createdAt
    ensures limit != 0 ==> |r| <= (if limit < 0 then -limit else limit)
    ensures skip < 0 ==> r == []
    ensures skip == 0 && limit == 0 ==> multiset(r) == multiset(Filter(cs, UserFilter(userId, status)))
  {
    Query(cs, UserFilter(userId, status), CreatedAt(), skip, limit)
  }

  function InRoom(roomId: string): Contribution -> bool
  {
    (c: Contribution) => c.roomId == roomId
  }

  /** get_room_contributions: every contribution stored under the room_id, whatever
      its status, newest first, after skip, at most |limit|. */
  function GetRoomContributions(cs: seq<Contribution>, roomId: string, limit: int, skip: int)
    : (r: seq<Contribution>)
    ensures forall i :: 0 <= i < |r| ==> r[i] in cs && r[i].roomId == roomId
    ensures forall i, j :: 0 <= i < j < |r| ==> r[i].createdAt >= r[j].createdAt
    ensures limit != 0 ==> |r| <= (if limit < 0 then -limit else limit)
    ensures skip < 0 ==> r == []
    ensures skip == 0 && limit == 0 ==> multiset(r) == multiset(Filter(cs, InRoom(roomId)))
  {
    Query(cs, InRoom(roomId), CreatedAt(), skip, limit)
  }

  // ---- _process_contribution ----

  /** The wallet transaction _process_contribution logs: its reference is the
      contribution's transaction_id. */
  function ContributionTx(c: Contribution, w: Wallet): (t: TxCreate)
    ensures t.reference == c.transactionId && t.txType == "contribution" && t.amount == c.amount
    ensures t.roomId == Some(c.roomId) && t.roomName.None? && t.walletId == w.id
  {
    TxCreate(c.userId, w.id, "contribution", c.amount, c.transactionId, "Contribution to " + c.roomId,
             Some(c.roomId), None, None)
  }

  /** The guards of _process_contribution: the contribution and the owner's wallet
      exist and the balance covers the amount. */
  predicate CanProcess(cs: seq<Contribution>, wallets: seq<Wallet>, id: string)
  {
    match FindFirst(cs, ContributionById(id))
    case None => false
    case Some(c) =>
      match GetWalletByUserId(wallets, c.userId)
      case None => false
      case Some(w) => !(w.balance < c.amount)
  }

  /** The debit half of _process_contribution: the wallet pays the contribution
      and a completed "contribution" transaction is logged under its
      transaction_id. */
  method ChargeWallet(db: Db, c: Contribution, w: Wallet, txId: string, now: Time)
    requires IndexOf(db.wallets, WalletById(w.id)).Some?
    modifies db`wallets, db`transactions
    ensures db.wallets == BalanceWrite(old(db.wallets), w.id, c.amount, "contribution", now)
    ensures db.transactions == LogCompleted(old(db.transactions), NewTx(txId, ContributionTx(c, w), now), now)
  {
    var debited := UpdateWalletBalance(db, w.id, c.amount, "contribution", now);
    var _ := RecordCompletedTx(db, ContributionTx(c, w), txId, now);
  }

  /** The credit half of _process_contribution: the room takes the amount and the
      contribution completes, or, when the room is not found, the wallet is paid
      back as a deposit. */
  method CreditRoom(db: Db, c: Contribution, w: Wallet, now: Time) returns (ok: bool)
    requires db.Valid()
    modifies db`wallets, db`rooms, db`contributions
    ensures db.Valid()
    ensures ok <==> RoomIndex(old(db.rooms), c.roomId).Some?
    ensures ok ==> db.wallets == old(db.wallets)
                   && db.rooms == CollectedWrite(old(db.rooms), c.roomId, c.amount, now)
                   && db.contributions == StatusWrite(old(db.contributions), c.id, Completed, None, now)
    ensures !ok ==> db.wallets == BalanceWrite(old(db.wallets), w.id, c.amount, "deposit", now)
                    && db.rooms == old(db.rooms) && db.contributions == old(db.contributions)
  {
    ok := UpdateRoomCollectedAmount(db, c.roomId, c.amount, now);
    if !ok {
      // compensate: add the amount back as a deposit
      var _ := UpdateWalletBalance(db, w.id, c.amount, "deposit", now);
      return;
    }
    var _ := UpdateContributionStatus(db, c.id, Completed, None, now);
  }

  /** _process_contribution. When a guard fails nothing changes. Otherwise the
      wallet is debited and a completed transaction logged; then either the room
      takes the amount and the contribution completes, or (room not found) the
      wallet is re-credited as a deposit and the transaction stays. */
  method ProcessContribution(db: Db, id: string, txId: string, now: Time) returns (ok: bool)
    requires db.Valid()
    modifies db`wallets, db`transactions, db`rooms, db`contributions
    ensures db.Valid()
    ensures !CanProcess(old(db.contributions), old(db.wallets), id) ==>
      !ok && db.wallets == old(db.wallets) && db.transactions == old(db.transactions)
      && db.rooms == old(db.rooms) && db.contributions == old(db.contributions)
    ensures CanProcess(old(db.contributions), old(db.wallets), id) ==>
      var c := FindFirst(old(db.contributions), ContributionById(id)).value;
      var w := GetWalletByUserId(old(db.wallets), c.userId).value;
      var debited := BalanceWrite(old(db.wallets), w.id, c.amount, "contribution", now);
      db.transactions == LogCompleted(old(db.transactions), NewTx(txId, ContributionTx(c, w), now), now)
      && (ok <==> RoomIndex(old(db.rooms), c.roomId).Some?)
      && (ok ==> db.wallets == debited
                 && db.rooms == CollectedWrite(old(db.rooms), c.roomId, c.amount, now)
                 && db.contributions == StatusWrite(old(db.contributions), id, Completed, None, now))
      && (!ok ==> db.wallets == BalanceWrite(debited, w.id, c.amount, "deposit", now)
                  && db.rooms == old(db.rooms) && db.contributions == old(db.contributions))
  {
    var found := FindFirst(db.contributions, ContributionById(id));
    if found.None? {
      return false;
    }
    var c := found.value;
    var wallet := GetWalletByUserId(db.wallets, c.userId);
    if wallet.None? {
      return false;
    }
    var w := wallet.value;
    if w.balance < c.amount {
      return false;
    }
    StoredWalletFound(db.wallets, w);
    ok := ChargeAndCredit(db, c, w, txId, now);
  }

  /** Both halves of _process_contribution once its guards have passed. */
  method ChargeAndCredit(db: Db, c: Contribution, w: Wallet, txId: string, now: Time) returns (ok: bool)
    requires db.Valid() && IndexOf(db.wallets, WalletById(w.id)).Some?
    modifies db`wallets, db`transactions, db`rooms, db`contributions
    ensures db.Valid()
    ensures db.transactions == LogCompleted(old(db.transactions), NewTx(txId, ContributionTx(c, w), now), now)
    ensures ok <==> RoomIndex(old(db.rooms), c.roomId).Some?
    ensures ok ==> db.wallets == BalanceWrite(old(db.wallets), w.id, c.amount, "contribution", now)
                   && db.rooms == CollectedWrite(old(db.rooms), c.roomId, c.amount, now)
                   && db.contributions == StatusWrite(old(db.contributions), c.id, Completed, None, now)
    ensures !ok ==> db.wallets == BalanceWrite(BalanceWrite(old(db.wallets), w.id, c.amount, "contribution", now),
                                               w.id, c.amount, "deposit", now)
                    && db.rooms == old(db.rooms) && db.contributions == old(db.contributions)
  {
    ChargeWallet(db, c, w, txId, now);
    ok := CreditRoom(db, c, w, now);
  }

  // ---- create_contribution ----

  /** ContributionCreate. */
  datatype ContributionCreate = ContributionCreate(
    roomId: string,
    userId: string,
    amount: real,
    transactionId: string,
    paymentMethod: string)

  /** The guards of create_contribution: the room exists and is open, and the
      user's wallet exists with a balance of at least the amount. */
  predicate CanContribute(rooms: seq<Room>, wallets: seq<Wallet>, data: ContributionCreate)
  {
    match FindRoom(rooms, data.roomId)
    case None => false
    case Some(room) =>
      room.status == Open
      && match GetWalletByUserId(wallets, data.userId)
         case None => false
         case Some(w) => !(w.balance < data.amount)
  }

  /** The end of create_contribution: the stored contribution on success;
      otherwise it is marked failed with reason "Insufficient balance", whatever
      made processing fail, and None is returned. */
  method FinishContribution(db: Db, id: string, success: bool, now: Time) returns (r: Option<Contribution>)
    modifies db`contributions
    ensures success ==> r == FindFirst(db.contributions, ContributionById(id)) && db.contributions == old(db.contributions)
    ensures !success ==>
      r.None? && db.contributions == StatusWrite(old(db.contributions), id, Failed, Some("Insufficient balance"), now)
  {
    if success {
      return FindFirst(db.contributions, ContributionById(id));
    }
    var _ := UpdateContributionStatus(db, id, Failed, Some("Insufficient balance"), now);
    r := None;
  }

  /** A contribution inserted under a fresh id is the one every later lookup
      by that id finds, and the status write lands on it. */
  lemma FreshContribution(cs: seq<Contribution>, c: Contribution, now: Time)
    requires forall k :: 0 <= k < |cs| ==> cs[k].id != c.id
    ensures FindFirst(cs + [c], ContributionById(c.id)) == Some(c)
    ensures var done := WithContributionStatus(c, Completed, None, now);
      StatusWrite(cs + [c], c.id, Completed, None, now) == cs + [done]
      && FindFirst(cs + [done], ContributionById(c.id)) == Some(done)
  {
    var done := WithContributionStatus(c, Completed, None, now);
    IndexOfAt(cs + [c], ContributionById(c.id), |cs|);
    IndexOfAt(cs + [done], ContributionById(c.id), |cs|);
    assert (cs + [c])[|cs| := done] == cs + [done];
  }

  /** create_contribution. Nothing is written unless its guards hold; then the
      contribution is inserted as pending and processed, which (with its own
      guards met by the same checks) debits the wallet, adds the amount to the
      room and completes the contribution. */
  method CreateContribution(db: Db, data: ContributionCreate, id: string, txId: string, now: Time)
    returns (r: Option<Contribution>)
    requires db.Valid()
    requires forall k :: 0 <= k < |db.contributions| ==> db.contributions[k].id != id
    modifies db`wallets, db`transactions, db`rooms, db`contributions
    ensures db.Valid()
    ensures !CanContribute(old(db.rooms), old(db.wallets), data) ==>
      r.None? && db.wallets == old(db.wallets) && db.transactions == old(db.transactions)
      && db.rooms == old(db.rooms) && db.contributions == old(db.contributions)
    ensures CanContribute(old(db.rooms), old(db.wallets), data) ==>
      var w := GetWalletByUserId(old(db.wallets), data.userId).value;
      var c := Contribution(id, data.roomId, data.userId, data.amount, Completed, data.transactionId,
                            data.paymentMethod, None, now, Some(now));
      r == Some(c) && db.contributions == old(db.contributions) + [c]
      && db.wallets == BalanceWrite(old(db.wallets), w.id, data.amount, "contribution", now)
      && db.transactions == LogCompleted(old(db.transactions), NewTx(txId, ContributionTx(c, w), now), now)
      && db.rooms == CollectedWrite(old(db.rooms), data.roomId, data.amount, now)
  {
    var room := FindRoom(db.rooms, data.roomId);
    if room.None? || room.value.status != Open {
      return None;
    }
    var wallet := GetWalletByUserId(db.wallets, data.userId);
    if wallet.None? || wallet.value.balance < data.amount {
      return None;
    }
    var pending := Contribution(id, data.roomId, data.userId, data.amount, Pending, data.transactionId,
                                data.paymentMethod, None, now, None);
    FreshContribution(db.contributions, pending, now);
    assert RoomIndex(db.rooms, data.roomId).Some?;
    db.contributions := db.contributions + [pending];
    assert CanProcess(db.contributions, db.wallets, id);
    var success := ProcessContribution(db, id, txId, now);
    r := FinishContribution(db, id, success, now);
  }
}
