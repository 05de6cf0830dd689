/**
 * WalletService: one wallet per user, its balance and running totals, and the
 * wallet_transactions log.
 */
module WalletService {
  import opened Base
  import opened Seqs
  import opened Store

  // ---- reads ----

  /** get_wallet_by_user_id: the first wallet stored for the user. */
  function GetWalletByUserId(wallets: seq<Wallet>, userId: string): (r: Option<Wallet>)
    ensures r.Some? ==> r.value in wallets && r.value.userId == userId
    ensures r.None? <==> forall i :: 0 <= i < |wallets| ==> wallets[i].userId != userId
  {
    FindFirst(wallets, WalletOf(userId))
  }

  /** The type filter of get_user_transactions: `if transaction_type:`. */
  function TxFilter(userId: string, txType: Option<string>): WalletTx -> bool
  {
    (t: WalletTx) => t.userId == userId && (Truthy(txType) ==> t.txType == txType.value)
  }

  function TxCreatedAt(): WalletTx -> int
  {
    (t: WalletTx) => t.createdAt
  }

  /** get_user_transactions: the user's transactions (of the type, when one is
      given and non-empty), newest first, after skip, at most |limit|. */
  function GetUserTransactions(txs: seq<WalletTx>, userId: string, limit: int, skip: int, txType: Option<string>)
    : (r: seq<WalletTx>)
    ensures forall i :: 0 <= i < |r| ==> r[i] in txs && r[i].userId == userId
    ensures Truthy(txType) ==> forall i :: 0 <= i < |r| ==> r[i].txType == txType.value
    ensures forall i, j :: 0 <= i < j < |r| ==> r[i].createdAt >= r[j].createdAt
    ensures limit != 0 ==> |r| <= (if limit < 0 then -limit else limit)
    ensures skip < 0 ==> r == []
    ensures skip == 0 && limit == 0 ==> multiset(r) == multiset(Filter(txs, TxFilter(userId, txType)))
  {
    Query(txs, TxFilter(userId, txType), TxCreatedAt(), skip, limit)
  }

  // ---- update_wallet_balance ----

  predicate IsCredit(txType: string) { txType == "deposit" || txType == "return" }
  predicate IsDebit(txType: string) { txType == "withdrawal" || txType == "contribution" }

  /** The type dispatch of update_wallet_balance: the wallet it writes back, or
      None when the type is none of the four it knows. */
  function ApplyBalanceChange(w: Wallet, amount: real, txType: string, now: Time): (r: Option<Wallet>)
    ensures r.Some? <==> IsCredit(txType) || IsDebit(txType)
    ensures r.Some? && IsCredit(txType) ==> r.value.balance == w.balance + amount
    ensures r.Some? && IsDebit(txType) ==> r.value.balance == w.balance - amount
    ensures r.Some? ==> r.value.totalDeposited == w.totalDeposited + (if txType == "deposit" then amount else 0.0)
    ensures r.Some? ==> r.value.totalWithdrawn == w.totalWithdrawn + (if txType == "withdrawal" then amount else 0.0)
    ensures r.Some? ==> r.value.totalReturns == w.totalReturns + (if txType == "return" then amount else 0.0)
    ensures r.Some? ==> r.value.updatedAt == now
    ensures r.Some? ==>
      r.value.(balance := w.balance, totalDeposited := w.totalDeposited, totalWithdrawn := w.totalWithdrawn,
               totalReturns := w.totalReturns, updatedAt := w.updatedAt) == w
  {
    if IsCredit(txType) then
      var w' := w.(balance := w.balance + amount, updatedAt := now);
      if txType == "deposit" then Some(w'.(totalDeposited := w.totalDeposited + amount))
      else Some(w'.(totalReturns := w.totalReturns + amount))
    else if IsDebit(txType) then
      var w' := w.(balance := w.balance - amount, updatedAt := now);
      if txType == "withdrawal" then Some(w'.(totalWithdrawn := w.totalWithdrawn + amount))
      else Some(w')
    else None
  }

  /** Money that left the wallet for rooms: what came in minus what went out
      minus what is still there. */
  function Committed(w: Wallet): real
  {
    w.totalDeposited + w.totalReturns - w.totalWithdrawn - w.balance
  }

  /** Deposits, returns and withdrawals keep the ledger balanced; a contribution
      is the one type that moves money out without a total recording it. */
  lemma LedgerBalance(w: Wallet, amount: real, txType: string, now: Time)
    requires IsCredit(txType) || IsDebit(txType)
    ensures var w' := ApplyBalanceChange(w, amount, txType, now).value;
      Committed(w') == Committed(w) + (if txType == "contribution" then amount else 0.0)
  {
  }

  /** A compensating deposit after a contribution restores the balance but not
      the totals: total_deposited grows by the amount. */
  lemma CompensationRaisesDeposits(w: Wallet, amount: real, t1: Time, t2: Time)
    ensures var debited := ApplyBalanceChange(w, amount, "contribution", t1).value;
      var restored := ApplyBalanceChange(debited, amount, "deposit", t2).value;
      restored.balance == w.balance && restored.totalDeposited == w.totalDeposited + amount
      && restored.totalWithdrawn == w.totalWithdrawn && restored.totalReturns == w.totalReturns
  {
  }

  function Balance(): Wallet -> real { (w: Wallet) => w.balance }

  /** The wallets collection after update_wallet_balance(walletId, amount, txType). */
  function BalanceWrite(wallets: seq<Wallet>, walletId: string, amount: real, txType: string, now: Time): seq<Wallet>
  {
    match IndexOf(wallets, WalletById(walletId))
    case None => wallets
    case Some(i) =>
      match ApplyBalanceChange(wallets[i], amount, txType, now)
      case None => wallets
      case Some(w) => wallets[i := w]
  }

  /** update_wallet_balance: the write carries updated_at, so a known type on a
      wallet that exists always succeeds; the balance is never checked. */
  method UpdateWalletBalance(db: Db, walletId: string, amount: real, txType: string, now: Time) returns (ok: bool)
    modifies db`wallets
    ensures ok <==> IndexOf(old(db.wallets), WalletById(walletId)).Some? && (IsCredit(txType) || IsDebit(txType))
    ensures db.wallets == BalanceWrite(old(db.wallets), walletId, amount, txType, now)
    ensures !ok ==> db.wallets == old(db.wallets)
  {
    var i := IndexOf(db.wallets, WalletById(walletId));
    if i.None? {
      return false;
    }
    var w := ApplyBalanceChange(db.wallets[i.value], amount, txType, now);
    if w.None? {
      return false;
    }
    db.wallets := db.wallets[i.value := w.value];
    ok := true;
  }

  /** A wallet that is stored is found by its id. */
  lemma StoredWalletFound(wallets: seq<Wallet>, w: Wallet)
    requires w in wallets
    ensures IndexOf(wallets, WalletById(w.id)).Some?
  {
    var j :| 0 <= j < |wallets| && wallets[j] == w;
    assert WalletById(w.id)(wallets[j]);
  }

  // ---- create_wallet ----

  /** create_wallet is get-or-create: a user's existing wallet is returned as it
      is, otherwise an empty KES wallet is added. */
  method CreateWallet(db: Db, userId: string, walletId: string, now: Time) returns (w: Wallet)
    modifies db`wallets
    ensures GetWalletByUserId(old(db.wallets), userId).Some? ==>
      w == GetWalletByUserId(old(db.wallets), userId).value && db.wallets == old(db.wallets)
    ensures GetWalletByUserId(old(db.wallets), userId).None? ==>
      w == Wallet(walletId, userId, 0.0, 0.0, 0.0, 0.0, "KES", now, now) && db.wallets == old(db.wallets) + [w]
    ensures w.userId == userId && GetWalletByUserId(db.wallets, userId) == Some(w)
  {
    var existing := GetWalletByUserId(db.wallets, userId);
    if existing.Some? {
      IndexOfAt(db.wallets, WalletOf(userId), IndexOf(db.wallets, WalletOf(userId)).value);
      return existing.value;
    }
    w := Wallet(walletId, userId, 0.0, 0.0, 0.0, 0.0, "KES", now, now);
    IndexOfAt(db.wallets + [w], WalletOf(userId), |db.wallets|);
    db.wallets := db.wallets + [w];
  }

  // ---- create_transaction ----

  /** WalletTransactionCreate. */
  datatype TxCreate = TxCreate(
    userId: string,
    walletId: string,
    txType: string,
    amount: real,
    reference: string,
    description: string,
    roomId: Option<string>,
    roomName: Option<string>,
    paystackReference: Option<string>)

  /** The document create_transaction would insert: pending, not completed. */
  function NewTx(id: string, data: TxCreate, now: Time): (t: WalletTx)
    ensures t.status == TxPending && t.completedAt.None? && t.reference == data.reference
  {
    WalletTx(id, data.userId, data.walletId, data.txType, data.amount, TxPending, data.reference,
             data.description, data.roomId, data.roomName, data.paystackReference, now, None)
  }

  /** The log after create_transaction: nothing is inserted when the reference is taken. */
  function RecordTx(txs: seq<WalletTx>, t: WalletTx): seq<WalletTx>
  {
    if FindFirst(txs, TxByReference(t.reference)).Some? then txs else txs + [t]
  }

  /** Idempotence: recording a second transaction with the same reference changes nothing. */
  lemma RecordTxIdempotent(txs: seq<WalletTx>, t: WalletTx, t': WalletTx)
    requires t'.reference == t.reference
    ensures RecordTx(RecordTx(txs, t), t') == RecordTx(txs, t)
  {
    if FindFirst(txs, TxByReference(t.reference)).None? {
      assert (txs + [t])[|txs|] == t;
    }
  }

  /** create_transaction never introduces a second transaction with a reference. */
  lemma RecordTxKeepsReferencesUnique(txs: seq<WalletTx>, t: WalletTx)
    requires forall i, j :: 0 <= i < j < |txs| ==> txs[i].reference != txs[j].reference
    ensures var r := RecordTx(txs, t);
      forall i, j :: 0 <= i < j < |r| ==> r[i].reference != r[j].reference
  {
  }

  /** create_transaction: returns the transaction stored under the reference,
      inserting a pending one only when there was none. */
  method CreateTransaction(db: Db, data: TxCreate, txId: string, now: Time) returns (t: WalletTx)
    modifies db`transactions
    ensures db.transactions == RecordTx(old(db.transactions), NewTx(txId, data, now))
    ensures FindFirst(db.transactions, TxByReference(data.reference)) == Some(t)
    ensures FindFirst(old(db.transactions), TxByReference(data.reference)).Some? ==>
      t == FindFirst(old(db.transactions), TxByReference(data.reference)).value
    ensures FindFirst(old(db.transactions), TxByReference(data.reference)).None? ==> t == NewTx(txId, data, now)
  {
    var existing := FindFirst(db.transactions, TxByReference(data.reference));
    if existing.Some? {
      IndexOfAt(db.transactions, TxByReference(data.reference), IndexOf(db.transactions, TxByReference(data.reference)).value);
      return existing.value;
    }
    t := NewTx(txId, data, now);
    IndexOfAt(db.transactions + [t], TxByReference(data.reference), |db.transactions|);
    db.transactions := db.transactions + [t];
  }

  // ---- update_transaction_status ----

  /** The $set of update_transaction_status: completed_at only when one is given. */
  function WithTxStatus(t: WalletTx, status: TxStatus, completedAt: Option<Time>): (r: WalletTx)
    ensures r.status == status
    ensures completedAt.Some? ==> r.completedAt == completedAt
    ensures completedAt.None? ==> r.completedAt == t.completedAt
    ensures r.(status := t.status, completedAt := t.completedAt) == t
  {
    t.(status := status, completedAt := if completedAt.Some? then completedAt else t.completedAt)
  }

  /** The log after update_transaction_status(txId, status, completedAt). */
  function TxStatusWrite(txs: seq<WalletTx>, txId: string, status: TxStatus, completedAt: Option<Time>): seq<WalletTx>
  {
    match IndexOf(txs, TxById(txId))
    case None => txs
    case Some(i) => txs[i := WithTxStatus(txs[i], status, completedAt)]
  }

  /** update_transaction_status: true iff the first transaction with the id exists
      and the $set changed it. */
  method UpdateTransactionStatus(db: Db, txId: string, status: TxStatus, completedAt: Option<Time>)
    returns (ok: bool)
    modifies db`transactions
    ensures db.transactions == TxStatusWrite(old(db.transactions), txId, status, completedAt)
    ensures var i := IndexOf(old(db.transactions), TxById(txId));
      ok <==> i.Some? && WithTxStatus(old(db.transactions)[i.value], status, completedAt) != old(db.transactions)[i.value]
  {
    var i := IndexOf(db.transactions, TxById(txId));
    if i.None? {
      return false;
    }
    var t := db.transactions[i.value];
    var t' := WithTxStatus(t, status, completedAt);
    db.transactions := db.transactions[i.value := t'];
    ok := t' != t;
  }

  /** The log after create_transaction(t) followed by update_transaction_status of
      the returned transaction to completed, as the ledger writers do. */
  function LogCompleted(txs: seq<WalletTx>, t: WalletTx, now: Time): seq<WalletTx>
  {
    var logged := RecordTx(txs, t);
    match FindFirst(logged, TxByReference(t.reference))
    case None => logged
    case Some(found) => TxStatusWrite(logged, found.id, TxCompleted, Some(now))
  }

  /** create_transaction then update_transaction_status, as one call. */
  method RecordCompletedTx(db: Db, data: TxCreate, txId: string, now: Time) returns (t: WalletTx)
    modifies db`transactions
    ensures db.transactions == LogCompleted(old(db.transactions), NewTx(txId, data, now), now)
  {
    t := CreateTransaction(db, data, txId, now);
    var _ := UpdateTransactionStatus(db, t.id, TxCompleted, Some(now));
  }

  /** The wallets and the transaction log together. */
  datatype Ledger = Ledger(wallets: seq<Wallet>, txs: seq<WalletTx>)
}
