/**
 * The profit split of an ended investment: completed contributions are summed
 * per user, every active member with a positive total gets a share of the
 * profit proportional to it, and each share is credited to the member's wallet
 * with a completed "return" transaction.
 */
module Distribution {
  import opened Base
  import opened Seqs
  import opened Store
  import opened WalletService

  // ---- per-user totals ----

  function Amount(): Contribution -> real { (c: Contribution) => c.amount }

  /** What one contribution adds to user u's total. */
  function AmountOf(u: string): Contribution -> real
  {
    (c: Contribution) => if c.userId == u then c.amount else 0.0
  }

  /** The completed amount user u contributed. */
  function UserTotal(cs: seq<Contribution>, u: string): real
  {
    SumBy(cs, AmountOf(u))
  }

  lemma UserTotalAppend(cs: seq<Contribution>, c: Contribution, u: string)
    ensures UserTotal(cs + [c], u) == UserTotal(cs, u) + (if c.userId == u then c.amount else 0.0)
  {
    SumConcat(cs, [c], AmountOf(u));
    assert [c][1..] == [];
  }

  lemma UserTotalCons(c: Contribution, rest: seq<Contribution>, u: string)
    ensures UserTotal([c] + rest, u) == (if c.userId == u then c.amount else 0.0) + UserTotal(rest, u)
  {
    assert ([c] + rest)[1..] == rest;
  }

  /** A user with no contribution has a total of 0. */
  lemma {:induction false} UserTotalNone(cs: seq<Contribution>, u: string)
    requires forall k :: 0 <= k < |cs| ==> cs[k].userId != u
    ensures UserTotal(cs, u) == 0.0
  {
    if cs != [] {
      assert forall k :: 0 <= k < |cs[1..]| ==> cs[1..][k] == cs[k + 1];
      UserTotalNone(cs[1..], u);
    }
  }

  /** With positive amounts, a user's total is positive exactly when the user
      contributed. */
  lemma {:induction false} UserTotalPositive(cs: seq<Contribution>, u: string)
    requires forall k :: 0 <= k < |cs| ==> cs[k].amount > 0.0
    ensures UserTotal(cs, u) >= 0.0
    ensures UserTotal(cs, u) > 0.0 <==> exists k :: 0 <= k < |cs| && cs[k].userId == u
  {
    if cs != [] {
      assert forall k :: 0 <= k < |cs[1..]| ==> cs[1..][k] == cs[k + 1];
      UserTotalPositive(cs[1..], u);
      if exists k :: 0 <= k < |cs[1..]| && cs[1..][k].userId == u {
        var k :| 0 <= k < |cs[1..]| && cs[1..][k].userId == u;
        assert cs[k + 1].userId == u;
      }
    }
  }

  /** The user_contributions loop of end_investment: a dict from user id to the
      sum of that user's amounts, with its keys in first-contribution order. */
  method SumContributionsByUser(cs: seq<Contribution>) returns (keys: seq<string>, totals: map<string, real>)
    ensures forall i, j :: 0 <= i < j < |keys| ==> keys[i] != keys[j]
    ensures forall u :: u in totals <==> u in keys
    ensures forall u :: u in keys <==> exists k :: 0 <= k < |cs| && cs[k].userId == u
    ensures forall u :: u in totals ==> totals[u] == UserTotal(cs, u)
  {
    keys := [];
    totals := map[];
    for i := 0 to |cs|
      invariant forall a, b :: 0 <= a < b < |keys| ==> keys[a] != keys[b]
      invariant forall u :: u in totals <==> u in keys
      invariant forall u :: u in keys <==> exists k :: 0 <= k < i && cs[k].userId == u
      invariant forall u :: u in totals ==> totals[u] == UserTotal(cs[..i], u)
    {
      var c := cs[i];
      assert cs[..i + 1] == cs[..i] + [c];
      forall u {
        UserTotalAppend(cs[..i], c, u);
      }
      if c.userId in totals {
        totals := totals[c.userId := totals[c.userId] + c.amount];
      } else {
        totals := totals[c.userId := c.amount];
        UserTotalNone(cs[..i], c.userId);
        keys := keys + [c.userId];
      }
    }
    assert cs[..|cs|] == cs;
  }

  /** sum(user_contributions.values()), in key order. */
  function SumValues(keys: seq<string>, totals: map<string, real>): real
    requires forall k :: 0 <= k < |keys| ==> keys[k] in totals
  {
    if keys == [] then 0.0 else totals[keys[0]] + SumValues(keys[1..], totals)
  }

  /** The users with a contribution in `cs`. */
  function Contributors(cs: seq<Contribution>): set<string>
  {
    set k | 0 <= k < |cs| :: cs[k].userId
  }

  /** user_contributions as a map: each contributor's total. */
  function Totals(cs: seq<Contribution>): (m: map<string, real>)
    ensures forall u :: u in m <==> exists k :: 0 <= k < |cs| && cs[k].userId == u
    ensures forall u :: u in m ==> m[u] == UserTotal(cs, u)
  {
    map u | u in Contributors(cs) :: UserTotal(cs, u)
  }

  // ---- regrouping a sum by user ----

  /** The sum of the totals of the users that `key` reads off `xs`. */
  function TotalOver<T>(xs: seq<T>, key: T -> string, cs: seq<Contribution>): real
  {
    if xs == [] then 0.0 else UserTotal(cs, key(xs[0])) + TotalOver(xs[1..], key, cs)
  }

  predicate DistinctKeys<T>(xs: seq<T>, key: T -> string)
  {
    forall i, j :: 0 <= i < j < |xs| ==> key(xs[i]) != key(xs[j])
  }

  predicate HasKey<T>(xs: seq<T>, key: T -> string, u: string)
  {
    exists i :: 0 <= i < |xs| && key(xs[i]) == u
  }

  lemma {:induction false} TotalOverEmpty<T>(xs: seq<T>, key: T -> string)
    ensures TotalOver(xs, key, []) == 0.0
  {
    if xs != [] {
      TotalOverEmpty(xs[1..], key);
    }
  }

  /** One more contribution adds its amount to the sum once, if its user is
      among the distinct keys, and not at all otherwise. */
  lemma {:induction false} TotalOverCons<T>(xs: seq<T>, key: T -> string, c: Contribution, rest: seq<Contribution>)
    requires DistinctKeys(xs, key)
    ensures TotalOver(xs, key, [c] + rest)
            == TotalOver(xs, key, rest) + (if HasKey(xs, key, c.userId) then c.amount else 0.0)
  {
    if xs != [] {
      var tail := xs[1..];
      assert forall i :: 0 <= i < |tail| ==> tail[i] == xs[i + 1];
      assert DistinctKeys(tail, key);
      TotalOverCons(tail, key, c, rest);
      UserTotalCons(c, rest, key(xs[0]));
      if HasKey(tail, key, c.userId) {
        var i :| 0 <= i < |tail| && key(tail[i]) == c.userId;
        assert key(xs[i + 1]) == c.userId;
      }
      if HasKey(xs, key, c.userId) && key(xs[0]) != c.userId {
        var i :| 0 <= i < |xs| && key(xs[i]) == c.userId;
        assert key(tail[i - 1]) == c.userId;
      }
    }
  }

  /** Summing the per-user totals over distinct users that include every
      contributor gives the sum of all amounts. */
  lemma {:induction false} Regroup<T>(xs: seq<T>, key: T -> string, cs: seq<Contribution>)
    requires DistinctKeys(xs, key)
    requires forall k :: 0 <= k < |cs| ==> HasKey(xs, key, cs[k].userId)
    ensures TotalOver(xs, key, cs) == SumBy(cs, Amount())
  {
    if cs == [] {
      TotalOverEmpty(xs, key);
    } else {
      assert cs == [cs[0]] + cs[1..];
      assert forall k :: 0 <= k < |cs[1..]| ==> cs[1..][k] == cs[k + 1];
      Regroup(xs, key, cs[1..]);
      TotalOverCons(xs, key, cs[0], cs[1..]);
    }
  }

  lemma {:induction false} SumValuesIsTotalOver(keys: seq<string>, totals: map<string, real>, cs: seq<Contribution>)
    requires forall k :: 0 <= k < |keys| ==> keys[k] in totals && totals[keys[k]] == UserTotal(cs, keys[k])
    ensures SumValues(keys, totals) == TotalOver(keys, (u: string) => u, cs)
  {
    if keys != [] {
      assert forall k :: 0 <= k < |keys[1..]| ==> keys[1..][k] == keys[k + 1];
      SumValuesIsTotalOver(keys[1..], totals, cs);
    }
  }

  /** total_contributions is the sum of all completed amounts. */
  lemma DictTotalIsSum(cs: seq<Contribution>, keys: seq<string>, totals: map<string, real>)
    requires forall i, j :: 0 <= i < j < |keys| ==> keys[i] != keys[j]
    requires forall u :: u in totals <==> u in keys
    requires forall u :: u in keys <==> exists k :: 0 <= k < |cs| && cs[k].userId == u
    requires forall u :: u in totals ==> totals[u] == UserTotal(cs, u)
    ensures forall k :: 0 <= k < |keys| ==> keys[k] in totals
    ensures SumValues(keys, totals) == SumBy(cs, Amount())
  {
    var id := (u: string) => u;
    SumValuesIsTotalOver(keys, totals, cs);
    forall k | 0 <= k < |cs| ensures HasKey(keys, id, cs[k].userId) {
      assert cs[k].userId in keys;
      var i :| 0 <= i < |keys| && keys[i] == cs[k].userId;
      assert id(keys[i]) == cs[k].userId;
    }
    Regroup(keys, id, cs);
  }

  // ---- profit distribution ----

  /** One entry of profit_distribution. */
  datatype Share = Share(userId: string, contribution: real, profitShare: real, totalReturn: real)

  /** user_contributions.get(user_id, 0). */
  function Lookup(totals: map<string, real>, u: string): real
  {
    if u in totals then totals[u] else 0.0
  }

  /** The entry of a member with contribution c: its share is c / total of the
      profit, and its return is c plus the share. */
  function Entry(userId: string, c: real, total: real, profit: real): (e: Share)
    requires total != 0.0
    ensures e.userId == userId && e.contribution == c
    ensures e.totalReturn - e.contribution == e.profitShare
    ensures e.profitShare * total == c * profit
  {
    var share := c / total * profit;
    Share(userId, c, share, c + share)
  }

  /** The entry of one member, if it has a positive contribution. */
  function ShareOf(m: Member, totals: map<string, real>, total: real, profit: real): seq<Share>
    requires total != 0.0
  {
    var c := Lookup(totals, m.userId);
    if c > 0.0 then [Entry(m.userId, c, total, profit)] else []
  }

  /** profit_distribution: the members with a positive contribution, in member
      order, each with contribution / total * profit. */
  function Distribute(members: seq<Member>, totals: map<string, real>, total: real, profit: real): seq<Share>
    requires total != 0.0
  {
    if members == [] then []
    else ShareOf(members[0], totals, total, profit) + Distribute(members[1..], totals, total, profit)
  }

  /** One step of Distribute, as the loop takes it: the entries so far, the
      entry of member i and those of the rest make up the whole. */
  lemma DistributeStep(dist: seq<Share>, members: seq<Member>, i: nat, totals: map<string, real>, total: real,
                       profit: real)
    requires total != 0.0 && i < |members|
    requires dist + Distribute(members[i..], totals, total, profit) == Distribute(members, totals, total, profit)
    ensures (dist + ShareOf(members[i], totals, total, profit)) + Distribute(members[i + 1..], totals, total, profit)
            == Distribute(members, totals, total, profit)
  {
    assert members[i..][1..] == members[i + 1..];
    var head, rest := ShareOf(members[i], totals, total, profit), Distribute(members[i + 1..], totals, total, profit);
    assert Distribute(members[i..], totals, total, profit) == head + rest;
    assert (dist + head) + rest == dist + (head + rest);
  }

  /** The profit_distribution loop. */
  method ProfitDistribution(members: seq<Member>, totals: map<string, real>, total: real, profit: real)
    returns (dist: seq<Share>)
    requires total != 0.0
    ensures dist == Distribute(members, totals, total, profit)
  {
    dist := [];
    for i := 0 to |members|
      invariant dist + Distribute(members[i..], totals, total, profit) == Distribute(members, totals, total, profit)
    {
      DistributeStep(dist, members, i, totals, total, profit);
      dist := AddShare(dist, members[i], totals, total, profit);
    }
  }

  /** The loop body: a member with a positive contribution gets an entry. */
  method AddShare(dist: seq<Share>, m: Member, totals: map<string, real>, total: real, profit: real)
    returns (r: seq<Share>)
    requires total != 0.0
    ensures r == dist + ShareOf(m, totals, total, profit)
  {
    r := dist;
    var c := Lookup(totals, m.userId);
    if c > 0.0 {
      r := r + [Entry(m.userId, c, total, profit)];
    }
  }

  function Contributed(): Share -> real { (s: Share) => s.contribution }
  function ProfitShare(): Share -> real { (s: Share) => s.profitShare }

  function UserOf(): Member -> string { (m: Member) => m.userId }

  predicate IsMember(members: seq<Member>, u: string)
  {
    exists i :: 0 <= i < |members| && members[i].userId == u
  }

  /** Every entry is a member with a positive contribution, its share is its
      contribution over the total times the profit, and its return is its
      contribution plus its share. */
  lemma {:induction false} DistributeEntries(members: seq<Member>, totals: map<string, real>, total: real, profit: real)
    requires total != 0.0
    ensures forall e :: e in Distribute(members, totals, total, profit) ==>
      e.contribution > 0.0 && e.contribution == Lookup(totals, e.userId)
      && e.profitShare * total == e.contribution * profit
      && e.totalReturn == e.contribution + e.profitShare
      && IsMember(members, e.userId)
  {
    if members != [] {
      DistributeEntries(members[1..], totals, total, profit);
      forall u | IsMember(members[1..], u) ensures IsMember(members, u) {
        var i :| 0 <= i < |members[1..]| && members[1..][i].userId == u;
        assert members[i + 1].userId == u;
      }
      assert IsMember(members, members[0].userId);
    }
  }

  /** The shares are the profit in proportion: their sum times the total is
      the distributed contributions times the profit. */
  lemma {:induction false} SharesProportional(members: seq<Member>, totals: map<string, real>, total: real, profit: real)
    requires total != 0.0
    ensures var d := Distribute(members, totals, total, profit);
      SumBy(d, ProfitShare()) * total == SumBy(d, Contributed()) * profit
  {
    if members != [] {
      var head := ShareOf(members[0], totals, total, profit);
      var rest := Distribute(members[1..], totals, total, profit);
      SharesProportional(members[1..], totals, total, profit);
      SumConcat(head, rest, ProfitShare());
      SumConcat(head, rest, Contributed());
      var hp, hc := SumBy(head, ProfitShare()), SumBy(head, Contributed());
      var rp, rc := SumBy(rest, ProfitShare()), SumBy(rest, Contributed());
      assert hp * total == hc * profit;
      assert (hp + rp) * total == hp * total + rp * total;
      assert (hc + rc) * profit == hc * profit + rc * profit;
    }
  }

  /** The distributed contributions add up to the sum of the members' totals. */
  lemma {:induction false} DistributedIsMemberTotal(members: seq<Member>, totals: map<string, real>,
                                                    cs: seq<Contribution>, total: real, profit: real)
    requires total != 0.0
    requires forall k :: 0 <= k < |cs| ==> cs[k].amount > 0.0
    requires forall u :: u in totals ==> totals[u] == UserTotal(cs, u)
    requires forall u :: u !in totals ==> forall k :: 0 <= k < |cs| ==> cs[k].userId != u
    ensures SumBy(Distribute(members, totals, total, profit), Contributed())
            == TotalOver(members, UserOf(), cs)
  {
    if members != [] {
      var u := members[0].userId;
      var head := ShareOf(members[0], totals, total, profit);
      var rest := Distribute(members[1..], totals, total, profit);
      DistributedIsMemberTotal(members[1..], totals, cs, total, profit);
      SumConcat(head, rest, Contributed());
      UserTotalPositive(cs, u);
      if u !in totals {
        UserTotalNone(cs, u);
      }
      assert Lookup(totals, u) == UserTotal(cs, u);
    }
  }

  /** When every contributor is an active member and each member appears once,
      the distributed contributions are all the completed amounts. */
  lemma DistributedIsEverything(members: seq<Member>, cs: seq<Contribution>, totals: map<string, real>,
                                total: real, profit: real)
    requires total != 0.0
    requires forall k :: 0 <= k < |cs| ==> cs[k].amount > 0.0
    requires forall u :: u in totals <==> exists k :: 0 <= k < |cs| && cs[k].userId == u
    requires forall u :: u in totals ==> totals[u] == UserTotal(cs, u)
    requires DistinctKeys(members, UserOf())
    requires forall k :: 0 <= k < |cs| ==> HasKey(members, UserOf(), cs[k].userId)
    ensures SumBy(Distribute(members, totals, total, profit), Contributed()) == SumBy(cs, Amount())
  {
    forall u | u !in totals ensures forall k :: 0 <= k < |cs| ==> cs[k].userId != u {
    }
    DistributedIsMemberTotal(members, totals, cs, total, profit);
    Regroup(members, UserOf(), cs);
  }

  /** Under the same conditions, the shares add up to exactly the profit. */
  lemma DistributionSplitsProfit(members: seq<Member>, cs: seq<Contribution>, totals: map<string, real>, profit: real)
    requires forall k :: 0 <= k < |cs| ==> cs[k].amount > 0.0
    requires forall u :: u in totals <==> exists k :: 0 <= k < |cs| && cs[k].userId == u
    requires forall u :: u in totals ==> totals[u] == UserTotal(cs, u)
    requires DistinctKeys(members, UserOf())
    requires forall k :: 0 <= k < |cs| ==> HasKey(members, UserOf(), cs[k].userId)
    requires SumBy(cs, Amount()) != 0.0
    ensures var total := SumBy(cs, Amount());
      SumBy(Distribute(members, totals, total, profit), ProfitShare()) == profit
  {
    var total := SumBy(cs, Amount());
    var d := Distribute(members, totals, total, profit);
    SharesProportional(members, totals, total, profit);
    DistributedIsEverything(members, cs, totals, total, profit);
    Cancel(SumBy(d, ProfitShare()), SumBy(d, Contributed()), total, profit);
  }

  lemma Cancel(sp: real, sc: real, total: real, profit: real)
    requires total != 0.0 && sc == total && sp * total == sc * profit
    ensures sp == profit
  {
    assert (sp - profit) * total == 0.0;
  }

  // ---- payout ----

  /** INV-END-{room_id[:8].upper()}-{user.id[:8].upper()}. */
  function EndReference(roomId: string, userId: string): string
  {
    "INV-END-" + Upper(Take(roomId, 8)) + "-" + Upper(Take(userId, 8))
  }

  /** The transaction recorded for one paid share. */
  function ReturnTx(userId: string, w: Wallet, s: Share, roomId: string, roomName: string): TxCreate
  {
    TxCreate(userId, w.id, "return", s.profitShare, EndReference(roomId, userId),
             "Investment return from " + roomName, None, None, None)
  }

  /** The ledger after paying one share to the user `recipient` names: nothing
      when there is no recipient or it has no wallet; otherwise the share is
      credited as a "return" and logged as a completed transaction. */
  function PayShare(l: Ledger, recipient: Option<string>, s: Share, roomId: string, roomName: string,
                    txId: string, now: Time): Ledger
  {
    match recipient
    case None => l
    case Some(u) =>
      match GetWalletByUserId(l.wallets, u)
      case None => l
      case Some(w) =>
        Ledger(BalanceWrite(l.wallets, w.id, s.profitShare, "return", now),
               LogCompleted(l.txs, NewTx(txId, ReturnTx(u, w, s, roomId, roomName), now), now))
  }

  /** The ledger after the payout loop; recipients[k] is the user paid for dist[k]. */
  function EndPayout(l: Ledger, dist: seq<Share>, recipients: seq<Option<string>>, roomId: string,
                     roomName: string, txIds: seq<string>, now: Time): Ledger
    requires |recipients| == |dist| && |txIds| == |dist|
    decreases dist
  {
    if dist == [] then l
    else EndPayout(PayShare(l, recipients[0], dist[0], roomId, roomName, txIds[0], now),
                   dist[1..], recipients[1..], roomId, roomName, txIds[1..], now)
  }

  /** The recipient end_investment looks up: the user whose firebase_uid is
      the member's user_id. Members hold database ids, so this finds nobody
      unless some firebase uid happens to equal one. */
  function RecipientAsWritten(users: map<string, string>, u: string): Option<string>
  {
    if u in users then Some(users[u]) else None
  }

  function RecipientsAsWritten(users: map<string, string>, dist: seq<Share>): (r: seq<Option<string>>)
    ensures |r| == |dist|
    ensures forall k :: 0 <= k < |dist| ==> r[k] == RecipientAsWritten(users, dist[k].userId)
  {
    seq(|dist|, k requires 0 <= k < |dist| => RecipientAsWritten(users, dist[k].userId))
  }

  /** The corrected recipient: the member's own user id. */
  function Recipients(dist: seq<Share>): (r: seq<Option<string>>)
    ensures |r| == |dist|
    ensures forall k :: 0 <= k < |dist| ==> r[k] == Some(dist[k].userId)
  {
    seq(|dist|, k requires 0 <= k < |dist| => Some(dist[k].userId))
  }

  /** The payout loop of end_investment. */
  method PayShares(db: Db, dist: seq<Share>, recipients: seq<Option<string>>, roomId: string, roomName: string,
                   txIds: seq<string>, now: Time)
    requires |recipients| == |dist| && |txIds| == |dist|
    modifies db`wallets, db`transactions
    ensures Ledger(db.wallets, db.transactions)
            == EndPayout(Ledger(old(db.wallets), old(db.transactions)), dist, recipients, roomId, roomName, txIds, now)
  {
    for i := 0 to |dist|
      invariant EndPayout(Ledger(db.wallets, db.transactions), dist[i..], recipients[i..], roomId, roomName,
                          txIds[i..], now)
                == EndPayout(Ledger(old(db.wallets), old(db.transactions)), dist, recipients, roomId, roomName,
                             txIds, now)
    {
      assert dist[i..][1..] == dist[i + 1..];
      assert recipients[i..][1..] == recipients[i + 1..];
      assert txIds[i..][1..] == txIds[i + 1..];
      PayOne(db, recipients[i], dist[i], roomId, roomName, txIds[i], now);
    }
  }

  /** One iteration of the payout loop. */
  method PayOne(db: Db, recipient: Option<string>, s: Share, roomId: string, roomName: string, txId: string,
                now: Time)
    modifies db`wallets, db`transactions
    ensures Ledger(db.wallets, db.transactions)
            == PayShare(Ledger(old(db.wallets), old(db.transactions)), recipient, s, roomId, roomName, txId, now)
  {
    if recipient.None? {
      return;
    }
    var u := recipient.value;
    var w := GetWalletByUserId(db.wallets, u);
    if w.None? {
      return;
    }
    StoredWalletFound(db.wallets, w.value);
    var ok := UpdateWalletBalance(db, w.value.id, s.profitShare, "return", now);
    if ok {
      var _ := RecordCompletedTx(db, ReturnTx(u, w.value, s, roomId, roomName), txId, now);
    }
  }

  /** As written, when no member id is also a firebase uid, the payout changes
      neither wallets nor transactions. */
  lemma {:induction false} EndPayoutAsWrittenPaysNobody(l: Ledger, dist: seq<Share>, users: map<string, string>,
                                                        roomId: string, roomName: string, txIds: seq<string>,
                                                        now: Time)
    requires |txIds| == |dist|
    requires forall k :: 0 <= k < |dist| ==> dist[k].userId !in users
    ensures EndPayout(l, dist, RecipientsAsWritten(users, dist), roomId, roomName, txIds, now) == l
  {
    if dist != [] {
      var r := RecipientsAsWritten(users, dist);
      assert r[0] == None;
      assert r[1..] == RecipientsAsWritten(users, dist[1..]);
      EndPayoutAsWrittenPaysNobody(l, dist[1..], users, roomId, roomName, txIds[1..], now);
    }
  }

  /** A return credit keeps every wallet's owner and the number of wallets. */
  lemma BalanceWriteKeepsOwners(wallets: seq<Wallet>, walletId: string, amount: real, now: Time)
    ensures var r := BalanceWrite(wallets, walletId, amount, "return", now);
      |r| == |wallets| && forall i :: 0 <= i < |r| ==> r[i].userId == wallets[i].userId
  {
  }

  predicate AllHaveWallets(wallets: seq<Wallet>, dist: seq<Share>)
  {
    forall k :: 0 <= k < |dist| ==> GetWalletByUserId(wallets, dist[k].userId).Some?
  }

  /** Paying to the members themselves, when each has a wallet, raises the total
      balance by exactly the sum of the shares. */
  lemma {:induction false} EndPayoutCreditsShares(l: Ledger, dist: seq<Share>, roomId: string, roomName: string,
                                                  txIds: seq<string>, now: Time)
    requires |txIds| == |dist|
    requires AllHaveWallets(l.wallets, dist)
    ensures SumBy(EndPayout(l, dist, Recipients(dist), roomId, roomName, txIds, now).wallets, Balance())
            == SumBy(l.wallets, Balance()) + SumBy(dist, ProfitShare())
    decreases dist
  {
    if dist != [] {
      var r := Recipients(dist);
      assert r[1..] == Recipients(dist[1..]);
      var w := GetWalletByUserId(l.wallets, dist[0].userId).value;
      StoredWalletFound(l.wallets, w);
      var i := IndexOf(l.wallets, WalletById(w.id)).value;
      var l' := PayShare(l, r[0], dist[0], roomId, roomName, txIds[0], now);
      SumUpdate(l.wallets, i, ApplyBalanceChange(l.wallets[i], dist[0].profitShare, "return", now).value, Balance());
      BalanceWriteKeepsOwners(l.wallets, w.id, dist[0].profitShare, now);
      forall k | 0 <= k < |dist[1..]| ensures GetWalletByUserId(l'.wallets, dist[1..][k].userId).Some? {
        assert dist[1..][k] == dist[k + 1];
        var j :| 0 <= j < |l.wallets| && l.wallets[j].userId == dist[k + 1].userId;
        assert l'.wallets[j].userId == dist[k + 1].userId;
      }
      EndPayoutCreditsShares(l', dist[1..], roomId, roomName, txIds[1..], now);
    }
  }
}
