/**
 * Settlement arithmetic of the investment endpoints: the stop-vote threshold,
 * the allocation breakdown an execution stores, the per-asset payout of a stop
 * and the profit split of an ended investment.
 */
module Settlement {
  import opened Base
  import opened Seqs
  import opened Store
  import opened WalletService

  // ---- stop threshold ----

  /** Python's int() of a float: truncation toward zero. */
  function Trunc(x: real): int
  {
    if x >= 0.0 then x.Floor else -((-x).Floor)
  }

  /** max(1, int(0.7 * n + 0.999)), the stop threshold for n current members. */
  function StopThreshold(n: int): (t: int)
    ensures t >= 1
  {
    var t := Trunc(0.7 * (n as real) + 0.999);
    if t > 1 then t else 1
  }

  /** For a member count n >= 0 the threshold is max(1, ceil(7n/10)). */
  lemma ThresholdIsCeiling(n: int)
    requires n >= 0
    ensures StopThreshold(n) == if (7 * n + 9) / 10 > 1 then (7 * n + 9) / 10 else 1
  {
    var q := (7 * n + 9) / 10;
    var x := 0.7 * (n as real) + 0.999;
    assert 10 * q <= 7 * n + 9 < 10 * q + 10;
    assert 7 * n <= 10 * q;
    assert (q as real) <= x < (q as real) + 1.0;
    assert x.Floor == q;
  }

  /** With members, a stop is reached exactly when at least 70% of them voted. */
  lemma ThresholdMeansSeventyPercent(n: int, votes: int)
    requires n > 0
    ensures votes >= StopThreshold(n) <==> 10 * votes >= 7 * n
  {
    ThresholdIsCeiling(n);
  }

  /** Five members need four stop votes. */
  lemma ThresholdOfFive()
    ensures StopThreshold(5) == 4
  {
    ThresholdIsCeiling(5);
  }

  /** The threshold the stop aggregate reports: 0 when the room has no members. */
  function AggregateThreshold(n: int): (t: int)
    ensures n == 0 ==> t == 0
    ensures n != 0 ==> t == StopThreshold(n) && t >= 1
  {
    if n != 0 then StopThreshold(n) else 0
  }

  // ---- execution breakdown ----

  const Palette: seq<string> := ["#0ea5e9", "#22c55e", "#f59e0b", "#ef4444", "#8b5cf6", "#14b8a6"]

  /** float(a.get('allocation', 0)): a missing allocation counts as 0. */
  function Percent(a: Allocation): real
  {
    if a.allocation.Some? then a.allocation.value else 0.0
  }

  /** `b` is the breakdown of `allocations` for `invested`: one entry per
      allocation, in order, holding its name and allocation,
      invested * allocation / 100 and the palette colour of its position. */
  predicate IsBreakdownOf(b: seq<BreakdownItem>, invested: real, allocations: seq<Allocation>)
  {
    |b| == |allocations|
    && forall i :: 0 <= i < |b| ==>
      b[i].name == allocations[i].name && b[i].allocation == allocations[i].allocation
      && b[i].amount == invested * (Percent(allocations[i]) / 100.0)
      && b[i].color == Palette[i % |Palette|]
  }

  /** The breakdown loop of execute_investment. */
  method BuildBreakdown(invested: real, allocations: seq<Allocation>) returns (b: seq<BreakdownItem>)
    ensures IsBreakdownOf(b, invested, allocations)
  {
    b := [];
    for idx := 0 to |allocations|
      invariant |b| == idx
      invariant forall i :: 0 <= i < idx ==>
        b[i].name == allocations[i].name && b[i].allocation == allocations[i].allocation
        && b[i].amount == invested * (Percent(allocations[i]) / 100.0)
        && b[i].color == Palette[i % |Palette|]
    {
      var a := allocations[idx];
      var amt := invested * (Percent(a) / 100.0);
      b := b + [BreakdownItem(a.name, a.allocation, amt, Palette[idx % |Palette|])];
    }
  }

  function ItemAmount(): BreakdownItem -> real { (x: BreakdownItem) => x.amount }
  function ItemPercent(): Allocation -> real { (a: Allocation) => Percent(a) }

  /** The breakdown amounts add up to the invested amount scaled by the total
      allocation: all of it when the allocations add up to 100. */
  lemma {:induction false} BreakdownSplitsInvested(invested: real, allocations: seq<Allocation>, b: seq<BreakdownItem>)
    requires |b| == |allocations|
    requires forall i :: 0 <= i < |b| ==> b[i].amount == invested * (Percent(allocations[i]) / 100.0)
    ensures SumBy(b, ItemAmount()) == invested * SumBy(allocations, ItemPercent()) / 100.0
  {
    if b != [] {
      assert forall i :: 0 <= i < |b[1..]| ==> b[1..][i] == b[i + 1] && allocations[1..][i] == allocations[i + 1];
      BreakdownSplitsInvested(invested, allocations[1..], b[1..]);
    }
  }

  // ---- stop payout ----

  /** float(series[-1].get('value', invested) or invested): a last value of 0
      falls back to the invested amount. */
  function LastValue(a: Analytics): real
    requires |a.series| > 0
  {
    var last := a.series[|a.series| - 1];
    if last == 0.0 then a.investedAmount else last
  }

  /** The asset a stop pays out for: the first breakdown entry whose name equals
      the request's asset_name (missing names compare equal). Breakdown entries
      carry no id, so the test against the recommendation id never matches. */
  function FindAsset(breakdown: seq<BreakdownItem>, assetName: Option<string>): (r: Option<BreakdownItem>)
    ensures r.Some? ==> r.value in breakdown && r.value.name == assetName
  {
    FindFirst(breakdown, (x: BreakdownItem) => x.name == assetName)
  }

  /** The weight of the asset: its allocation / 100, or, when there is no asset
      or its allocation is 0, an even share over the breakdown. None: the asset
      was stored with a null allocation and float(None) raises. */
  function AssetWeight(breakdown: seq<BreakdownItem>, asset: Option<BreakdownItem>): (w: Option<real>)
    ensures asset.Some? && asset.value.allocation.None? <==> w.None?
    ensures asset.Some? && asset.value.allocation.Some? && asset.value.allocation.value != 0.0 ==>
      w == Some(asset.value.allocation.value / 100.0)
  {
    var even := 1.0 / (if |breakdown| > 1 then |breakdown| else 1) as real;
    match asset
    case None => Some(even)
    case Some(x) =>
      match x.allocation
      case None => None
      case Some(alloc) => Some(if alloc != 0.0 then alloc / 100.0 else even)
  }

  /** max(0, last - invested) * weight. */
  function AssetProfit(invested: real, last: real, weight: real): (p: real)
    ensures weight >= 0.0 ==> p >= 0.0
    ensures last <= invested ==> p == 0.0
  {
    (if last - invested > 0.0 then last - invested else 0.0) * weight
  }

  function Stake(): Member -> real { (m: Member) => m.contributionAmount }

  /** sum(contribution_amount) or 1.0: a zero total stake becomes 1. */
  function TotalStake(members: seq<Member>): (t: real)
    ensures t != 0.0
  {
    var s := SumBy(members, Stake());
    if s == 0.0 then 1.0 else s
  }

  function StopShare(profit: real, m: Member, totalStake: real): real
    requires totalStake != 0.0
  {
    profit * (m.contributionAmount / totalStake)
  }

  /** The wallets after crediting one member's share: nothing when the share is
      not positive or the member has no wallet; otherwise balance and
      total_returns grow by the share, as a "return" does. */
  function CreditShare(wallets: seq<Wallet>, userId: string, share: real, now: Time): seq<Wallet>
  {
    if share <= 0.0 then wallets
    else match GetWalletByUserId(wallets, userId)
      case None => wallets
      case Some(w) => BalanceWrite(wallets, w.id, share, "return", now)
  }

  /** The wallets after the stop payout loop over `members`. */
  function StopPayout(wallets: seq<Wallet>, members: seq<Member>, profit: real, totalStake: real, now: Time)
    : seq<Wallet>
    requires totalStake != 0.0
    decreases members
  {
    if members == [] then wallets
    else StopPayout(CreditShare(wallets, members[0].userId, StopShare(profit, members[0], totalStake), now),
                    members[1..], profit, totalStake, now)
  }

  /** The payout loop of stop_investment. */
  method PayStopShares(db: Db, members: seq<Member>, profit: real, totalStake: real, now: Time)
    requires totalStake != 0.0
    modifies db`wallets
    ensures db.wallets == StopPayout(old(db.wallets), members, profit, totalStake, now)
  {
    for i := 0 to |members|
      invariant StopPayout(db.wallets, members[i..], profit, totalStake, now)
                == StopPayout(old(db.wallets), members, profit, totalStake, now)
    {
      var m := members[i];
      assert members[i..][1..] == members[i + 1..];
      var share := StopShare(profit, m, totalStake);
      if share <= 0.0 {
        continue;
      }
      var w := GetWalletByUserId(db.wallets, m.userId);
      if w.Some? {
        StoredWalletFound(db.wallets, w.value);
        var _ := UpdateWalletBalance(db, w.value.id, share, "return", now);
      }
    }
  }

  /** A credited share raises the wallets' total balance by the share, or by
      nothing; it never lowers it. */
  lemma CreditShareRaisesBalance(wallets: seq<Wallet>, userId: string, share: real, now: Time)
    ensures var after := SumBy(CreditShare(wallets, userId, share, now), Balance());
      after == SumBy(wallets, Balance())
      || (share > 0.0 && after == SumBy(wallets, Balance()) + share)
  {
    if share > 0.0 {
      match GetWalletByUserId(wallets, userId)
      case None =>
      case Some(w) =>
        StoredWalletFound(wallets, w);
        var i := IndexOf(wallets, WalletById(w.id)).value;
        SumUpdate(wallets, i, ApplyBalanceChange(wallets[i], share, "return", now).value, Balance());
    }
  }

  /** A stop payout never lowers the total balance held in wallets. */
  lemma {:induction false} StopPayoutNeverDebits(wallets: seq<Wallet>, members: seq<Member>, profit: real,
                                                 totalStake: real, now: Time)
    requires totalStake != 0.0
    ensures SumBy(StopPayout(wallets, members, profit, totalStake, now), Balance()) >= SumBy(wallets, Balance())
    decreases members
  {
    if members != [] {
      var share := StopShare(profit, members[0], totalStake);
      CreditShareRaisesBalance(wallets, members[0].userId, share, now);
      StopPayoutNeverDebits(CreditShare(wallets, members[0].userId, share, now), members[1..], profit, totalStake, now);
    }
  }

  /** Stakes come from contribution_amount, which stays 0: every share is 0 and
      the payout credits nobody. */
  lemma {:induction false} StopPayoutZeroStakes(wallets: seq<Wallet>, members: seq<Member>, profit: real, now: Time)
    requires forall k :: 0 <= k < |members| ==> members[k].contributionAmount == 0.0
    ensures StopPayout(wallets, members, profit, TotalStake(members), now) == wallets
  {
    ZeroStakesSum(members);
    ZeroStakesPay(wallets, members, profit, 1.0, now);
  }

  lemma {:induction false} ZeroStakesSum(members: seq<Member>)
    requires forall k :: 0 <= k < |members| ==> members[k].contributionAmount == 0.0
    ensures SumBy(members, Stake()) == 0.0
  {
    if members != [] {
      assert forall k :: 0 <= k < |members[1..]| ==> members[1..][k] == members[k + 1];
      ZeroStakesSum(members[1..]);
    }
  }

  lemma {:induction false} ZeroStakesPay(wallets: seq<Wallet>, members: seq<Member>, profit: real, totalStake: real,
                                         now: Time)
    requires totalStake != 0.0
    requires forall k :: 0 <= k < |members| ==> members[k].contributionAmount == 0.0
    ensures StopPayout(wallets, members, profit, totalStake, now) == wallets
    decreases members
  {
    if members != [] {
      assert StopShare(profit, members[0], totalStake) == 0.0;
      assert forall k :: 0 <= k < |members[1..]| ==> members[1..][k] == members[k + 1];
      ZeroStakesPay(wallets, members[1..], profit, totalStake, now);
    }
  }
}
