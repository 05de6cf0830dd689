/**
 * WithdrawalService: a withdrawal request is created pending, processed to
 * completed or failed against the owner's wallet, or cancelled while pending.
 */
module WithdrawalService {
  import opened Base
  import opened Seqs
  import opened Store
  import opened WalletService

  /** WithdrawalCreate. */
  datatype WithdrawalCreate = WithdrawalCreate(userId: string, amount: real, reference: string, reason: Option<string>)

  // ---- create_withdrawal ----

  /** The guards of create_withdrawal: the user's wallet exists, covers the
      amount, and the amount is within [100, 1,000,000]. */
  predicate CanWithdraw(wallets: seq<Wallet>, data: WithdrawalCreate)
  {
    match GetWalletByUserId(wallets, data.userId)
    case None => false
    case Some(w) => !(w.balance < data.amount) && !(data.amount < MinAmount) && !(data.amount > MaxAmount)
  }

  /** How the amount reaches insert_one: the request's Decimal as it is, or
      converted to a float. */
  datatype AmountField = DecimalAmount(d: real) | FloatAmount(f: real)

  /** PyMongo's default codec has no encoder for Decimal: insert_one raises. */
  predicate Encodable(a: AmountField)
  {
    a.FloatAmount?
  }

  /** The amount field create_withdrawal writes: the Decimal itself. */
  function AmountFieldAsWritten(data: WithdrawalCreate): (a: AmountField)
    ensures !Encodable(a)
  {
    DecimalAmount(data.amount)
  }

  /** The amount field a working create_withdrawal writes, as create_contribution
      does: float(amount). */
  function AmountFieldCorrected(data: WithdrawalCreate): (a: AmountField)
    ensures Encodable(a)
  {
    FloatAmount(data.amount)
  }

  /** The document create_withdrawal inserts: pending, no paystack reference,
      not processed. */
  function NewWithdrawal(id: string, data: WithdrawalCreate, now: Time): (w: Withdrawal)
    ensures w.status == WithdrawalPending && w.paystackReference.None? && w.processedAt.None?
    ensures w.userId == data.userId && w.amount == data.amount && w.reference == data.reference
  {
    Withdrawal(id, data.userId, data.amount, WithdrawalPending, data.reference, data.reason, None, None, now)
  }

  /** The outcome of create_withdrawal when the amount reaches insert_one as
      `field`: None when a guard fails or the insert raises, else the new document. */
  function CreateOutcome(wallets: seq<Wallet>, data: WithdrawalCreate, field: AmountField, id: string, now: Time)
    : (r: Option<Withdrawal>)
    ensures r.Some? <==> CanWithdraw(wallets, data) && Encodable(field)
    ensures r.Some? ==> r == Some(NewWithdrawal(id, data, now))
  {
    if !CanWithdraw(wallets, data) then None
    else if !Encodable(field) then None
    else Some(NewWithdrawal(id, data, now))
  }

  /** As written, create_withdrawal never creates anything, whatever the input. */
  lemma CreateWithdrawalAsWrittenNeverCreates(wallets: seq<Wallet>, data: WithdrawalCreate, id: string, now: Time)
    ensures CreateOutcome(wallets, data, AmountFieldAsWritten(data), id, now).None?
  {
  }

  /** A request every guard accepts (a wallet holding 500.00, a withdrawal of
      200.00) still fails as written and succeeds once the amount is a float. */
  lemma CreateWithdrawalAsWrittenRejectsValidRequest()
    ensures var wallets := [Wallet("w1", "u1", 500.0, 500.0, 0.0, 0.0, "KES", 0, 0)];
      var data := WithdrawalCreate("u1", 200.0, "WTH-0000000A", Some(""));
      CanWithdraw(wallets, data)
      && CreateOutcome(wallets, data, AmountFieldAsWritten(data), "x1", 1).None?
      && CreateOutcome(wallets, data, AmountFieldCorrected(data), "x1", 1).Some?
  {
    var wallets := [Wallet("w1", "u1", 500.0, 500.0, 0.0, 0.0, "KES", 0, 0)];
    assert GetWalletByUserId(wallets, "u1") == Some(wallets[0]);
  }

  /** create_withdrawal with the amount stored as a float: the wallet is only
      read; the request is stored pending exactly when every guard passes. */
  method CreateWithdrawal(db: Db, data: WithdrawalCreate, id: string, now: Time) returns (r: Option<Withdrawal>)
    requires IsCanonicalObjectId(id)
    requires forall k :: 0 <= k < |db.withdrawals| ==> db.withdrawals[k].id != id
    modifies db`withdrawals
    ensures r == CreateOutcome(old(db.wallets), data, AmountFieldCorrected(data), id, now)
    ensures r.Some? <==> CanWithdraw(old(db.wallets), data)
    ensures r.Some? ==> db.withdrawals == old(db.withdrawals) + [r.value]
                        && FindWithdrawal(db.withdrawals, id) == r
    ensures r.None? ==> db.withdrawals == old(db.withdrawals)
  {
    var wallet := GetWalletByUserId(db.wallets, data.userId);
    if wallet.None? || wallet.value.balance < data.amount {
      return None;
    }
    if data.amount < MinAmount || data.amount > MaxAmount {
      return None;
    }
    var w := NewWithdrawal(id, data, now);
    IndexOfAt(db.withdrawals + [w], WithdrawalById(id), |db.withdrawals|);
    db.withdrawals := db.withdrawals + [w];
    r := Some(w);
  }

  // ---- update_withdrawal_status ----

  /** The $set of update_withdrawal_status: paystack_reference only when a truthy
      one is given, processed_at only when one is given. */
  function WithWithdrawalStatus(w: Withdrawal, status: WithdrawalStatus, paystackRef: Option<string>,
                                processedAt: Option<Time>): (r: Withdrawal)
    ensures r.status == status
    ensures r.paystackReference == if Truthy(paystackRef) then paystackRef else w.paystackReference
    ensures r.processedAt == if processedAt.Some? then processedAt else w.processedAt
    ensures r.(status := w.status, paystackReference := w.paystackReference, processedAt := w.processedAt) == w
  {
    w.(status := status,
       paystackReference := if Truthy(paystackRef) then paystackRef else w.paystackReference,
       processedAt := if processedAt.Some? then processedAt else w.processedAt)
  }

  /** The withdrawals collection after update_withdrawal_status. */
  function WithdrawalStatusWrite(ws: seq<Withdrawal>, id: string, status: WithdrawalStatus,
                                 paystackRef: Option<string>, processedAt: Option<Time>): seq<Withdrawal>
  {
    match WithdrawalIndex(ws, id)
    case None => ws
    case Some(i) => ws[i := WithWithdrawalStatus(ws[i], status, paystackRef, processedAt)]
  }

  /** update_withdrawal_status: true iff the withdrawal exists and the $set changed it. */
  method UpdateWithdrawalStatus(db: Db, id: string, status: WithdrawalStatus, paystackRef: Option<string>,
                                processedAt: Option<Time>) returns (ok: bool)
    modifies db`withdrawals
    ensures db.withdrawals == WithdrawalStatusWrite(old(db.withdrawals), id, status, paystackRef, processedAt)
    ensures var i := WithdrawalIndex(old(db.withdrawals), id);
      ok <==> i.Some? && WithWithdrawalStatus(old(db.withdrawals)[i.value], status, paystackRef, processedAt)
                         != old(db.withdrawals)[i.value]
  {
    var i := WithdrawalIndex(db.withdrawals, id);
    if i.None? {
      return false;
    }
    var w := db.withdrawals[i.value];
    var w' := WithWithdrawalStatus(w, status, paystackRef, processedAt);
    db.withdrawals := db.withdrawals[i.value := w'];
    ok := w' != w;
  }

  /** Two status writes in a row to the same withdrawal leave the second status,
      the last truthy paystack reference and the last given processed_at. */
  lemma StatusWritesCompose(w: Withdrawal, s1: WithdrawalStatus, s2: WithdrawalStatus, ref: Option<string>,
                            t1: Option<Time>, t2: Option<Time>)
    ensures WithWithdrawalStatus(WithWithdrawalStatus(w, s1, ref, t1), s2, ref, t2)
            == WithWithdrawalStatus(w, s2, ref, if t2.Some? then t2 else t1)
  {
  }

  // ---- process_withdrawal ----

  /** The wallet transaction process_withdrawal records: the withdrawal's own
      reference and the transfer reference, left pending. */
  function WithdrawalTx(wd: Withdrawal, w: Wallet, paystackRef: Option<string>): (t: TxCreate)
    ensures t.reference == wd.reference && t.txType == "withdrawal" && t.amount == wd.amount
    ensures t.userId == wd.userId && t.walletId == w.id && t.paystackReference == paystackRef
  {
    TxCreate(wd.userId, w.id, "withdrawal", wd.amount, wd.reference, "Withdrawal", None, None, paystackRef)
  }

  /** process_withdrawal can pay out: the owner's wallet exists and covers the amount. */
  predicate CanPayOut(wallets: seq<Wallet>, wd: Withdrawal)
  {
    match GetWalletByUserId(wallets, wd.userId)
    case None => false
    case Some(w) => !(w.balance < wd.amount)
  }

  /** process_withdrawal, whatever the withdrawal's current status: an unknown
      withdrawal changes nothing; otherwise it is set to processing, then to
      failed when the wallet is missing or short, or the wallet is debited, a
      withdrawal transaction is recorded and it is set to completed at `now`. */
  method ProcessWithdrawal(db: Db, id: string, paystackRef: Option<string>, txId: string, now: Time)
    returns (ok: bool)
    modifies db`withdrawals, db`wallets, db`transactions
    ensures var found := FindWithdrawal(old(db.withdrawals), id);
      var processing := WithdrawalStatusWrite(old(db.withdrawals), id, WithdrawalProcessing, paystackRef, None);
      && (found.None? ==> !ok && db.withdrawals == old(db.withdrawals))
      && (ok <==> found.Some? && CanPayOut(old(db.wallets), found.value))
      && (found.Some? && !ok ==>
            db.withdrawals == WithdrawalStatusWrite(processing, id, WithdrawalFailed, paystackRef, None))
      && (!ok ==> db.wallets == old(db.wallets) && db.transactions == old(db.transactions))
      && (ok ==>
            var wd := found.value;
            var w := GetWalletByUserId(old(db.wallets), wd.userId).value;
            db.wallets == BalanceWrite(old(db.wallets), w.id, wd.amount, "withdrawal", now)
            && db.transactions == RecordTx(old(db.transactions), NewTx(txId, WithdrawalTx(wd, w, paystackRef), now))
            && db.withdrawals == WithdrawalStatusWrite(processing, id, WithdrawalCompleted, paystackRef, Some(now)))
  {
    var found := FindWithdrawal(db.withdrawals, id);
    if found.None? {
      return false;
    }
    var wd := found.value;
    var _ := UpdateWithdrawalStatus(db, id, WithdrawalProcessing, paystackRef, None);
    var wallet := GetWalletByUserId(db.wallets, wd.userId);
    if wallet.None? || wallet.value.balance < wd.amount {
      var _ := UpdateWithdrawalStatus(db, id, WithdrawalFailed, paystackRef, None);
      return false;
    }
    var w := wallet.value;
    StoredWalletFound(db.wallets, w);
    var debited := UpdateWalletBalance(db, w.id, wd.amount, "withdrawal", now);
    if !debited {
      assert false;
    }
    var _ := CreateTransaction(db, WithdrawalTx(wd, w, paystackRef), txId, now);
    var _ := UpdateWithdrawalStatus(db, id, WithdrawalCompleted, paystackRef, Some(now));
    ok := true;
  }

  // ---- cancel_withdrawal ----

  /** cancel_withdrawal may act: the withdrawal exists, belongs to the caller
      and is still pending. */
  predicate CanCancel(ws: seq<Withdrawal>, id: string, userId: string)
  {
    match FindWithdrawal(ws, id)
    case None => false
    case Some(wd) => wd.userId == userId && wd.status == WithdrawalPending
  }

  /** The withdrawal id is parsed as an ObjectId: any spelling of a stored id in
      upper- or lower-case hex reaches the same withdrawal, and a string that is
      not an ObjectId reaches none. */
  lemma CancelIgnoresCase(ws: seq<Withdrawal>, s: string, userId: string)
    ensures IsObjectId(s) ==> (CanCancel(ws, s, userId) <==> CanCancel(ws, Lower(s), userId))
    ensures !IsObjectId(s) ==> !CanCancel(ws, s, userId)
  {
    if IsObjectId(s) {
      LowerIsObjectId(s);
      assert Lower(Lower(s)) == Lower(s);
    }
  }

  /** cancel_withdrawal: only the owner, only from pending, sets cancelled and
      nothing else; otherwise nothing changes. */
  method CancelWithdrawal(db: Db, id: string, userId: string) returns (ok: bool)
    modifies db`withdrawals
    ensures ok <==> CanCancel(old(db.withdrawals), id, userId)
    ensures ok ==>
      var i := WithdrawalIndex(old(db.withdrawals), id).value;
      db.withdrawals == old(db.withdrawals)[i := old(db.withdrawals)[i].(status := WithdrawalCancelled)]
    ensures !ok ==> db.withdrawals == old(db.withdrawals)
  {
    var i := WithdrawalIndex(db.withdrawals, id);
    if i.None? {
      return false;
    }
    var wd := db.withdrawals[i.value];
    if wd.userId != userId || wd.status != WithdrawalPending {
      return false;
    }
    db.withdrawals := db.withdrawals[i.value := wd.(status := WithdrawalCancelled)];
    ok := true;
  }

  // ---- reads ----

  function StatusName(s: WithdrawalStatus): string
  {
    match s
    case WithdrawalPending => "pending"
    case WithdrawalProcessing => "processing"
    case WithdrawalCompleted => "completed"
    case WithdrawalFailed => "failed"
    case WithdrawalCancelled => "cancelled"
  }

  function WithdrawalFilter(userId: string, status: Option<string>): Withdrawal -> bool
  {
    (w: Withdrawal) => w.userId == userId && (Truthy(status) ==> StatusName(w.status) == status.value)
  }

  function WithdrawalCreatedAt(): Withdrawal -> int
  {
    (w: Withdrawal) => w.createdAt
  }

  /** get_user_withdrawals: the user's withdrawals (with that status, when a
      non-empty one is given), newest first, after skip, at most |limit|. */
  function GetUserWithdrawals(ws: seq<Withdrawal>, userId: string, limit: int, skip: int, status: Option<string>)
    : (r: seq<Withdrawal>)
    ensures forall i :: 0 <= i < |r| ==> r[i] in ws && r[i].userId == userId
    ensures Truthy(status) ==> forall i :: 0 <= i < |r| ==> StatusName(r[i].status) == status.value
    ensures forall i, j :: 0 <= i < j < |r| ==> r[i].createdAt >= r[j].createdAt
    ensures limit != 0 ==> |r| <= (if limit < 0 then -limit else limit)
    ensures skip < 0 ==> r == []
    ensures skip == 0 && limit == 0 ==> multiset(r) == multiset(Filter(ws, WithdrawalFilter(userId, status)))
  {
    Query(ws, WithdrawalFilter(userId, status), WithdrawalCreatedAt(), skip, limit)
  }
}
