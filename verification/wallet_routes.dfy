/**
 * The wallet endpoints: the caller's balance (creating an empty wallet on
 * first use), the transaction and withdrawal histories, a top-up that is
 * credited at once, and a withdrawal request. Each handler first resolves the
 * caller's Firebase uid to the database id through get_user_by_firebase_uid,
 * modelled by the `users` map of the store.
 */
module WalletRoutes {
  import opened Base
  import opened Seqs
  import opened Store
  import opened WalletService
  import opened WithdrawalService

  // ---- get_wallet_by_user_id, else create_wallet ----

  /** The empty KES wallet create_wallet inserts. */
  function EmptyWallet(walletId: string, userId: string, now: Time): Wallet
  {
    Wallet(walletId, userId, 0.0, 0.0, 0.0, 0.0, "KES", now, now)
  }

  /** The wallets after looking the user's wallet up and creating one when
      there is none: afterwards the user has a wallet, and at most one
      document was added, at the end. */
  function EnsureWallet(wallets: seq<Wallet>, userId: string, walletId: string, now: Time): (r: seq<Wallet>)
    ensures GetWalletByUserId(r, userId).Some?
    ensures |wallets| <= |r| <= |wallets| + 1 && r[..|wallets|] == wallets
    ensures GetWalletByUserId(wallets, userId).Some? ==> r == wallets
  {
    if GetWalletByUserId(wallets, userId).Some? then wallets
    else
      var r := wallets + [EmptyWallet(walletId, userId, now)];
      assert WalletOf(userId)(r[|wallets|]);
      r
  }

  /** Asking again never creates a second wallet, and other users' lookups are
      not disturbed. */
  lemma EnsureWalletOnce(wallets: seq<Wallet>, userId: string, id1: string, id2: string, t1: Time, t2: Time)
    ensures var once := EnsureWallet(wallets, userId, id1, t1);
      EnsureWallet(once, userId, id2, t2) == once
      && forall v :: v != userId ==> GetWalletByUserId(once, v) == GetWalletByUserId(wallets, v)
  {
    if GetWalletByUserId(wallets, userId).None? {
      forall v | v != userId
        ensures GetWalletByUserId(EnsureWallet(wallets, userId, id1, t1), v) == GetWalletByUserId(wallets, v)
      {
        AppendUnmatched(wallets, EmptyWallet(id1, userId, t1), WalletOf(v));
      }
    }
  }

  /** get_wallet_balance: 404 for an unknown caller; otherwise the caller's
      wallet, which is created empty when they have none yet. */
  method GetWalletBalance(db: Db, userId: Option<string>, walletId: string, now: Time)
    returns (code: int, wallet: Option<Wallet>)
    modifies db`wallets
    ensures CallerId(db.users, userId).None? ==> code == 404 && wallet.None? && db.wallets == old(db.wallets)
    ensures CallerId(db.users, userId).Some? ==>
      var uid := CallerId(db.users, userId).value;
      code == 200 && db.wallets == EnsureWallet(old(db.wallets), uid, walletId, now)
      && wallet == GetWalletByUserId(db.wallets, uid)
      && (GetWalletByUserId(old(db.wallets), uid).Some? ==> wallet == GetWalletByUserId(old(db.wallets), uid))
      && (GetWalletByUserId(old(db.wallets), uid).None? ==> wallet == Some(EmptyWallet(walletId, uid, now)))
  {
    var uid := CallerId(db.users, userId);
    if uid.None? {
      return 404, None;
    }
    var w := CreateWallet(db, uid.value, walletId, now);
    code, wallet := 200, Some(w);
  }

  // ---- the histories ----

  /** get_wallet_transactions: the caller's transactions, of the `type`
      argument when one is given; limit defaults to 50 and skip to 0, and the
      count is the length of the page. */
  function TransactionsPage(txs: seq<WalletTx>, users: map<string, string>, userId: Option<string>,
                            limit: Option<int>, skip: Option<int>, txType: Option<string>): (p: Listing<WalletTx>)
    ensures p.PageError? <==> CallerId(users, userId).None?
    ensures p.PageError? ==> p.code == 404
    ensures p.Listed? ==>
      p.limit == ArgOr(limit, 50) && p.skip == ArgOr(skip, 0) && p.count == |p.items|
      && p.items == GetUserTransactions(txs, CallerId(users, userId).value, p.limit, p.skip, txType)
    ensures p.Listed? ==> forall i :: 0 <= i < |p.items| ==> p.items[i] in txs && p.items[i].userId == users[userId.value]
    ensures p.Listed? && limit.None? ==> |p.items| <= 50
  {
    match CallerId(users, userId)
    case None => PageError(404)
    case Some(uid) =>
      var l, s := ArgOr(limit, 50), ArgOr(skip, 0);
      var items := GetUserTransactions(txs, uid, l, s, txType);
      Listed(items, l, s, |items|)
  }

  /** get_withdrawals: the caller's withdrawal requests, of the `status`
      argument when one is given, with the same paging defaults. */
  function WithdrawalsPage(ws: seq<Withdrawal>, users: map<string, string>, userId: Option<string>,
                           limit: Option<int>, skip: Option<int>, status: Option<string>): (p: Listing<Withdrawal>)
    ensures p.PageError? <==> CallerId(users, userId).None?
    ensures p.PageError? ==> p.code == 404
    ensures p.Listed? ==>
      p.limit == ArgOr(limit, 50) && p.skip == ArgOr(skip, 0) && p.count == |p.items|
      && p.items == GetUserWithdrawals(ws, CallerId(users, userId).value, p.limit, p.skip, status)
    ensures p.Listed? ==> forall i :: 0 <= i < |p.items| ==> p.items[i] in ws && p.items[i].userId == users[userId.value]
    ensures p.Listed? && limit.None? ==> |p.items| <= 50
  {
    match CallerId(users, userId)
    case None => PageError(404)
    case Some(uid) =>
      var l, s := ArgOr(limit, 50), ArgOr(skip, 0);
      var items := GetUserWithdrawals(ws, uid, l, s, status);
      Listed(items, l, s, |items|)
  }

  // ---- topup_wallet ----

  /** The refusals of topup_wallet in the order it makes them: the amount is
      checked before the user is looked up, so an unknown caller with a bad
      amount gets 400. */
  function TopupRefusal(users: map<string, string>, userId: Option<string>, amount: Option<real>): (r: Option<int>)
    ensures r.None? <==> CallerId(users, userId).Some? && amount.Some? && AmountInRange(amount.value)
    ensures r == Some(400) <==> Truthy(userId) && (amount.None? || !AmountInRange(amount.value))
    ensures r == Some(404) <==>
      !Truthy(userId) || (amount.Some? && AmountInRange(amount.value) && userId.value !in users)
  {
    if !Truthy(userId) then Some(404)
    else if amount.None? then Some(400)
    else if !AmountInRange(amount.value) then Some(400)
    else if userId.value !in users then Some(404)
    else None
  }

  /** The deposit a top-up records. */
  function TopupTx(userId: string, walletId: string, amount: real, reference: string): TxCreate
  {
    TxCreate(userId, walletId, "deposit", amount, reference, "Wallet top-up via Paystack", None, None, None)
  }

  /** The wallet a top-up credits: the caller's, created empty when missing. */
  function UserWallet(wallets: seq<Wallet>, userId: string, walletId: string, now: Time): (w: Wallet)
    ensures w.userId == userId && w in EnsureWallet(wallets, userId, walletId, now)
    ensures GetWalletByUserId(wallets, userId).Some? ==> w == GetWalletByUserId(wallets, userId).value
    ensures GetWalletByUserId(wallets, userId).None? ==> w == EmptyWallet(walletId, userId, now)
  {
    var held := EnsureWallet(wallets, userId, walletId, now);
    assert GetWalletByUserId(wallets, userId).None? ==> IndexOf(held, WalletOf(userId)) == Some(|wallets|) by {
      if GetWalletByUserId(wallets, userId).None? {
        IndexOfAt(held, WalletOf(userId), |wallets|);
      }
    }
    GetWalletByUserId(held, userId).value
  }

  /** The pending deposit a top-up creates, with its "TOP-" reference. */
  function TopupEntry(wallets: seq<Wallet>, userId: string, walletId: string, amount: real, hex: string,
                      txId: string, now: Time): (t: WalletTx)
    requires |hex| >= 8 && forall i :: 0 <= i < |hex| ==> IsHexDigit(hex[i])
    ensures t.userId == userId && t.walletId == UserWallet(wallets, userId, walletId, now).id
    ensures t.txType == "deposit" && t.amount == amount && t.status == TxPending
    ensures |t.reference| == 12 && t.reference[..4] == "TOP-"
    ensures forall i :: 4 <= i < 12 ==> ('0' <= t.reference[i] <= '9') || ('A' <= t.reference[i] <= 'F')
  {
    NewTx(txId, TopupTx(userId, UserWallet(wallets, userId, walletId, now).id, amount, HexReference("TOP-", hex)), now)
  }

  /** topup_wallet: after the checks, the caller's wallet (created when
      missing) is credited with the amount as a deposit at once, and the
      deposit, with a "TOP-" reference, is logged and marked completed. The
      reply carries the transaction as create_transaction returned it and the
      wallet as re-read after the credit. */
  method TopupWallet(db: Db, userId: Option<string>, amount: Option<real>, hex: string, walletId: string,
                     txId: string, now: Time)
    returns (code: int, tx: Option<WalletTx>, wallet: Option<Wallet>)
    requires |hex| >= 8 && forall i :: 0 <= i < |hex| ==> IsHexDigit(hex[i])
    modifies db`wallets, db`transactions
    ensures TopupRefusal(db.users, userId, amount).Some? ==>
      code == TopupRefusal(db.users, userId, amount).value && tx.None? && wallet.None?
      && db.wallets == old(db.wallets) && db.transactions == old(db.transactions)
    ensures TopupRefusal(db.users, userId, amount).None? ==>
      var w := UserWallet(old(db.wallets), db.users[userId.value], walletId, now);
      var t := TopupEntry(old(db.wallets), db.users[userId.value], walletId, amount.value, hex, txId, now);
      code == 201
      && db.wallets == BalanceWrite(EnsureWallet(old(db.wallets), db.users[userId.value], walletId, now),
                                    w.id, amount.value, "deposit", now)
      && db.transactions == LogCompleted(old(db.transactions), t, now)
      && tx == FindFirst(RecordTx(old(db.transactions), t), TxByReference(t.reference))
      && wallet == FindFirst(db.wallets, WalletById(w.id))
  {
    var refusal := TopupRefusal(db.users, userId, amount);
    if refusal.Some? {
      return refusal.value, None, None;
    }
    var t, current := Topup(db, db.users[userId.value], amount.value, hex, walletId, txId, now);
    code, tx, wallet := 201, Some(t), current;
  }

  /** What topup_wallet does once the request has passed its checks. */
  method Topup(db: Db, uid: string, amount: real, hex: string, walletId: string, txId: string, now: Time)
    returns (t: WalletTx, current: Option<Wallet>)
    requires |hex| >= 8 && forall i :: 0 <= i < |hex| ==> IsHexDigit(hex[i])
    modifies db`wallets, db`transactions
    ensures db.wallets == BalanceWrite(EnsureWallet(old(db.wallets), uid, walletId, now),
                                       UserWallet(old(db.wallets), uid, walletId, now).id, amount, "deposit", now)
    ensures db.transactions
            == LogCompleted(old(db.transactions), TopupEntry(old(db.wallets), uid, walletId, amount, hex, txId, now), now)
    ensures Some(t) == FindFirst(RecordTx(old(db.transactions), TopupEntry(old(db.wallets), uid, walletId, amount, hex, txId, now)),
                                 TxByReference(TopupEntry(old(db.wallets), uid, walletId, amount, hex, txId, now).reference))
    ensures current == FindFirst(db.wallets, WalletById(UserWallet(old(db.wallets), uid, walletId, now).id))
  {
    var w := CreateWallet(db, uid, walletId, now);
    assert db.wallets == EnsureWallet(old(db.wallets), uid, walletId, now);
    assert w == UserWallet(old(db.wallets), uid, walletId, now);
    var data := TopupTx(uid, w.id, amount, HexReference("TOP-", hex));
    assert NewTx(txId, data, now) == TopupEntry(old(db.wallets), uid, walletId, amount, hex, txId, now);
    t, current := Deposit(db, w, data, txId, now);
  }

  /** The deposit step of topup_wallet: create_transaction, the credit, and
      marking the transaction completed when the credit went through; then
      the wallet is re-read. */
  method Deposit(db: Db, w: Wallet, data: TxCreate, txId: string, now: Time)
    returns (t: WalletTx, current: Option<Wallet>)
    requires w in db.wallets && data.walletId == w.id && data.txType == "deposit"
    modifies db`wallets, db`transactions
    ensures db.wallets == BalanceWrite(old(db.wallets), w.id, data.amount, "deposit", now)
    ensures db.transactions == LogCompleted(old(db.transactions), NewTx(txId, data, now), now)
    ensures Some(t) == FindFirst(RecordTx(old(db.transactions), NewTx(txId, data, now)), TxByReference(data.reference))
    ensures current == FindFirst(db.wallets, WalletById(w.id))
  {
    t := CreateTransaction(db, data, txId, now);
    StoredWalletFound(db.wallets, w);
    var updated := UpdateWalletBalance(db, w.id, data.amount, "deposit", now);
    current := Some(w);
    if updated {
      var _ := UpdateTransactionStatus(db, t.id, TxCompleted, Some(now));
      current := FindFirst(db.wallets, WalletById(w.id));
    }
  }

  predicate WalletIdsUnique(wallets: seq<Wallet>)
  {
    forall i, j :: 0 <= i < j < |wallets| ==> wallets[i].id != wallets[j].id
  }

  /** With distinct wallet ids and a fresh id for a wallet it may create, a
      top-up raises the caller's balance and total_deposited by the amount,
      starting from 0 for a new wallet. */
  lemma TopupCredits(wallets: seq<Wallet>, uid: string, walletId: string, amount: real, now: Time)
    requires WalletIdsUnique(wallets)
    requires forall k :: 0 <= k < |wallets| ==> wallets[k].id != walletId
    ensures var after := BalanceWrite(EnsureWallet(wallets, uid, walletId, now),
                                      UserWallet(wallets, uid, walletId, now).id, amount, "deposit", now);
      var before := GetWalletByUserId(wallets, uid);
      var mine := GetWalletByUserId(after, uid);
      && mine.Some?
      && mine.value.balance == (if before.Some? then before.value.balance else 0.0) + amount
      && mine.value.totalDeposited == (if before.Some? then before.value.totalDeposited else 0.0) + amount
  {
    var held := EnsureWallet(wallets, uid, walletId, now);
    var i, w' := TopupWriteAt(wallets, uid, walletId, amount, now);
    var after := held[i := w'];
    assert GetWalletByUserId(after, uid) == Some(w') by {
      IndexOfAt(after, WalletOf(uid), i);
    }
  }

  /** The top-up rewrites exactly the caller's wallet, at the position where
      get_wallet_by_user_id finds it. */
  lemma TopupWriteAt(wallets: seq<Wallet>, uid: string, walletId: string, amount: real, now: Time)
    returns (i: nat, w': Wallet)
    requires WalletIdsUnique(wallets)
    requires forall k :: 0 <= k < |wallets| ==> wallets[k].id != walletId
    ensures var held := EnsureWallet(wallets, uid, walletId, now);
      && IndexOf(held, WalletOf(uid)) == Some(i) && held[i] == UserWallet(wallets, uid, walletId, now)
      && w' == ApplyBalanceChange(held[i], amount, "deposit", now).value && w'.userId == uid
      && BalanceWrite(held, held[i].id, amount, "deposit", now) == held[i := w']
  {
    var held := EnsureWallet(wallets, uid, walletId, now);
    i := IndexOf(held, WalletOf(uid)).value;
    var w := held[i];
    w' := ApplyBalanceChange(w, amount, "deposit", now).value;
    assert WalletIdsUnique(held);
    IndexOfAt(held, WalletById(w.id), i);
  }

  /** A top-up raises the total held in wallets by the amount. */
  lemma TopupRaisesTotal(wallets: seq<Wallet>, uid: string, walletId: string, amount: real, now: Time)
    requires WalletIdsUnique(wallets)
    requires forall k :: 0 <= k < |wallets| ==> wallets[k].id != walletId
    ensures SumBy(BalanceWrite(EnsureWallet(wallets, uid, walletId, now), UserWallet(wallets, uid, walletId, now).id,
                               amount, "deposit", now), Balance())
            == SumBy(wallets, Balance()) + amount
  {
    var held := EnsureWallet(wallets, uid, walletId, now);
    var i, w' := TopupWriteAt(wallets, uid, walletId, amount, now);
    SumUpdate(held, i, w', Balance());
    EnsureWalletSum(wallets, uid, walletId, now);
  }

  /** A top-up leaves every other user's wallet as it was. */
  lemma TopupKeepsOthers(wallets: seq<Wallet>, uid: string, walletId: string, amount: real, now: Time)
    requires WalletIdsUnique(wallets)
    requires forall k :: 0 <= k < |wallets| ==> wallets[k].id != walletId
    ensures var after := BalanceWrite(EnsureWallet(wallets, uid, walletId, now),
                                      UserWallet(wallets, uid, walletId, now).id, amount, "deposit", now);
      forall v :: v != uid ==> GetWalletByUserId(after, v) == GetWalletByUserId(wallets, v)
  {
    var held := EnsureWallet(wallets, uid, walletId, now);
    var i, w' := TopupWriteAt(wallets, uid, walletId, amount, now);
    EnsureWalletOnce(wallets, uid, walletId, walletId, now, now);
    forall v | v != uid ensures GetWalletByUserId(held[i := w'], v) == GetWalletByUserId(wallets, v) {
      OwnerUpdateKeepsOthers(held, i, w', v);
    }
  }

  /** A wallet created on demand holds nothing. */
  lemma EnsureWalletSum(wallets: seq<Wallet>, uid: string, walletId: string, now: Time)
    ensures SumBy(EnsureWallet(wallets, uid, walletId, now), Balance()) == SumBy(wallets, Balance())
  {
    if GetWalletByUserId(wallets, uid).None? {
      var e := EmptyWallet(walletId, uid, now);
      SumConcat(wallets, [e], Balance());
      assert SumBy([e], Balance()) == 0.0 + SumBy([e][1..], Balance());
    }
  }

  /** Rewriting one user's wallet leaves every other user's lookup as it was. */
  lemma OwnerUpdateKeepsOthers(ws: seq<Wallet>, i: nat, x: Wallet, v: string)
    requires i < |ws| && ws[i].userId == x.userId != v
    ensures GetWalletByUserId(ws[i := x], v) == GetWalletByUserId(ws, v)
  {
    var after := ws[i := x];
    forall k | 0 <= k < |after|
      ensures WalletOf(v)(after[k]) == WalletOf(v)(ws[k]) && (WalletOf(v)(after[k]) ==> after[k] == ws[k])
    {
    }
    SameMatches(after, ws, WalletOf(v));
  }

  // ---- request_withdrawal ----

  /** The refusals of request_withdrawal in the order it makes them; the
      balance is checked against the caller's wallet before the request is
      stored. */
  function WithdrawRefusal(users: map<string, string>, wallets: seq<Wallet>, userId: Option<string>,
                           amount: Option<real>): (r: Option<int>)
    ensures r.None? <==>
      CallerId(users, userId).Some? && amount.Some? && AmountInRange(amount.value)
      && GetWalletByUserId(wallets, users[userId.value]).Some?
      && !(GetWalletByUserId(wallets, users[userId.value]).value.balance < amount.value)
    ensures Truthy(userId) && (amount.None? || !AmountInRange(amount.value)) ==> r == Some(400)
    ensures CallerId(users, userId).Some? && amount.Some? && AmountInRange(amount.value) ==>
      (GetWalletByUserId(wallets, users[userId.value]).None? ==> r == Some(404))
      && ((GetWalletByUserId(wallets, users[userId.value]).Some?
           && GetWalletByUserId(wallets, users[userId.value]).value.balance < amount.value) ==> r == Some(400))
  {
    if !Truthy(userId) then Some(404)
    else if amount.None? then Some(400)
    else if !AmountInRange(amount.value) then Some(400)
    else if userId.value !in users then Some(404)
    else match GetWalletByUserId(wallets, users[userId.value])
      case None => Some(404)
      case Some(w) => if w.balance < amount.value then Some(400) else None
  }

  /** The request request_withdrawal stores: a "WTH-" reference, and the
      reason defaulting to "". */
  function WithdrawalRequest(uid: string, amount: real, hex: string, reason: Option<string>): (d: WithdrawalCreate)
    requires |hex| >= 8 && forall i :: 0 <= i < |hex| ==> IsHexDigit(hex[i])
    ensures d.userId == uid && d.amount == amount && d.reason.Some?
    ensures |d.reference| == 12 && d.reference[..4] == "WTH-"
    ensures forall i :: 4 <= i < 12 ==> ('0' <= d.reference[i] <= '9') || ('A' <= d.reference[i] <= 'F')
    ensures reason.None? ==> d.reason == Some("")
    ensures reason.Some? ==> d.reason == reason
  {
    WithdrawalCreate(uid, amount, HexReference("WTH-", hex), Some(if reason.Some? then reason.value else ""))
  }

  /** The route admits a request exactly when create_withdrawal's own checks
      pass for it: the two sets of guards agree. */
  lemma WithdrawGuardsAgree(users: map<string, string>, wallets: seq<Wallet>, userId: Option<string>,
                            amount: real, hex: string, reason: Option<string>)
    requires |hex| >= 8 && forall i :: 0 <= i < |hex| ==> IsHexDigit(hex[i])
    requires CallerId(users, userId).Some?
    ensures WithdrawRefusal(users, wallets, userId, Some(amount)).None?
            <==> CanWithdraw(wallets, WithdrawalRequest(users[userId.value], amount, hex, reason))
  {
  }

  /** request_withdrawal with create_withdrawal as corrected (the as-written
      service refuses every request; see CreateWithdrawalAsWrittenNeverCreates):
      after the checks the request is stored pending and returned with 200; the
      wallet is not touched until it is processed. */
  method RequestWithdrawal(db: Db, userId: Option<string>, amount: Option<real>, reason: Option<string>,
                           hex: string, id: string, now: Time)
    returns (code: int, withdrawal: Option<Withdrawal>)
    requires |hex| >= 8 && forall i :: 0 <= i < |hex| ==> IsHexDigit(hex[i])
    requires IsCanonicalObjectId(id)
    requires forall k :: 0 <= k < |db.withdrawals| ==> db.withdrawals[k].id != id
    modifies db`withdrawals
    ensures WithdrawRefusal(db.users, db.wallets, userId, amount).Some? ==>
      code == WithdrawRefusal(db.users, db.wallets, userId, amount).value && withdrawal.None?
      && db.withdrawals == old(db.withdrawals)
    ensures WithdrawRefusal(db.users, db.wallets, userId, amount).None? ==>
      code == 200
      && withdrawal == Some(NewWithdrawal(id, WithdrawalRequest(db.users[userId.value], amount.value, hex, reason), now))
      && db.withdrawals == old(db.withdrawals) + [withdrawal.value]
  {
    var refusal := WithdrawRefusal(db.users, db.wallets, userId, amount);
    if refusal.Some? {
      return refusal.value, None;
    }
    var data := WithdrawalRequest(db.users[userId.value], amount.value, hex, reason);
    WithdrawGuardsAgree(db.users, db.wallets, userId, amount.value, hex, reason);
    withdrawal := CreateWithdrawal(db, data, id, now);
    if withdrawal.None? {
      assert false;
      return 500, None;
    }
    code := 200;
  }
}
