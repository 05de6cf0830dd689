/**
 * The investment endpoints: casting and counting votes, executing a plan,
 * voting to stop an asset (with its payout) and ending the investment (with
 * its settlement). Each handler is one sequential step over the database.
 */
module InvestmentRoutes {
  import opened Base
  import opened Seqs
  import opened Store
  import opened WalletService
  import opened InvestmentService
  import opened Settlement
  import opened Distribution

  /** current_members of the room the id names, or 0 when there is none. */
  function MemberCountOf(rooms: seq<Room>, roomId: string): int
  {
    match FindRoom(rooms, roomId)
    case Some(room) => room.currentMembers
    case None => 0
  }

  // ---- POST /votes and GET /votes/aggregate ----

  /** POST /votes: 404 without a caller, 400 without a body or with one that is
      not a VoteCreate; otherwise the vote is cast under the caller's uid and
      read back (200). */
  method CastVoteRoute(db: Db, userId: Option<string>, body: Option<VoteCreate>, voteId: string, now: Time)
    returns (code: int, vote: Option<Vote>)
    requires db.Valid()
    modifies db`votes
    ensures db.Valid()
    ensures !Truthy(userId) ==> code == 404 && db.votes == old(db.votes)
    ensures Truthy(userId) && body.None? ==> code == 400 && db.votes == old(db.votes)
    ensures Truthy(userId) && body.Some? ==>
      code == 200 && db.votes == UpsertVote(old(db.votes), userId.value, body.value, voteId, now)
      && vote.Some? && vote.value.vote == body.value.vote && vote.value.userId == userId.value
  {
    vote := None;
    if !Truthy(userId) {
      return 404, None;
    }
    if body.None? {
      return 400, None;
    }
    vote := CastVote(db, userId.value, body.value, voteId, now);
    if vote.None? {
      return 500, None;
    }
    code := 200;
  }

  datatype AggregateReply = AggregateError(code: int) | AggregateOk(aggregate: VoteAggregate)

  /** GET /votes/aggregate: 400 without a room id; otherwise the counts, with
      the room's current_members as the total (0 when the id names no room). */
  function VoteAggregateRoute(rooms: seq<Room>, votes: seq<Vote>, roomId: Option<string>, recId: Option<string>)
    : (r: AggregateReply)
    ensures !Truthy(roomId) <==> r == AggregateError(400)
    ensures r.AggregateOk? ==>
      r.aggregate.total == MemberCountOf(rooms, roomId.value) && r.aggregate.roomId == roomId.value
      && r.aggregate.recommendationId == recId
      && r.aggregate.approve == Count(votes, WithChoice(roomId.value, recId, "approve"))
      && r.aggregate.reject == Count(votes, WithChoice(roomId.value, recId, "reject"))
    ensures r.AggregateOk? && !IsObjectId(roomId.value) ==> r.aggregate.total == 0
  {
    if !Truthy(roomId) then AggregateError(400)
    else AggregateOk(GetAggregate(votes, roomId.value, recId, MemberCountOf(rooms, roomId.value), false))
  }

  // ---- POST /execute ----

  datatype ExecuteReply = ExecuteError(code: int) | Executed(roomId: string, investedAmount: real)

  /** The rooms after execute's update_one: the room turns "investing" with an
      execution, whatever its status and whoever asked. */
  function StartWrite(rooms: seq<Room>, roomId: string, now: Time): (r: seq<Room>)
    ensures |r| == |rooms|
    ensures RoomIndex(rooms, roomId).None? ==> r == rooms
    ensures RoomIndex(rooms, roomId).Some? ==>
      var i := RoomIndex(rooms, roomId).value;
      r[i] == rooms[i].(status := Investing, hasExecution := true, updatedAt := now)
      && forall j :: 0 <= j < |rooms| && j != i ==> r[j] == rooms[j]
  {
    match RoomIndex(rooms, roomId)
    case None => rooms
    case Some(i) => rooms[i := rooms[i].(status := Investing, hasExecution := true, updatedAt := now)]
  }

  /** The analytics after update_one({'room_id': ...}, {'$set': doc}, upsert=True). */
  function AnalyticsWrite(docs: seq<Analytics>, doc: Analytics): seq<Analytics>
  {
    match IndexOf(docs, AnalyticsOf(doc.roomId))
    case Some(i) => docs[i := doc]
    case None => docs + [doc]
  }

  /** The upsert keeps one document per room, and the room's document is the new one. */
  lemma AnalyticsWriteStores(docs: seq<Analytics>, doc: Analytics)
    requires AnalyticsKeysUnique(docs)
    ensures AnalyticsKeysUnique(AnalyticsWrite(docs, doc))
    ensures FindFirst(AnalyticsWrite(docs, doc), AnalyticsOf(doc.roomId)) == Some(doc)
    ensures forall id :: id != doc.roomId ==>
      FindFirst(AnalyticsWrite(docs, doc), AnalyticsOf(id)) == FindFirst(docs, AnalyticsOf(id))
  {
    var r := AnalyticsWrite(docs, doc);
    match IndexOf(docs, AnalyticsOf(doc.roomId))
    case Some(i) =>
      IndexOfAt(r, AnalyticsOf(doc.roomId), i);
      forall id | id != doc.roomId
        ensures FindFirst(r, AnalyticsOf(id)) == FindFirst(docs, AnalyticsOf(id))
      {
        SameMatches(docs, r, AnalyticsOf(id));
      }
    case None =>
      IndexOfAt(r, AnalyticsOf(doc.roomId), |docs|);
      forall id | id != doc.roomId
        ensures FindFirst(r, AnalyticsOf(id)) == FindFirst(docs, AnalyticsOf(id))
      {
        AppendUnmatched(docs, doc, AnalyticsOf(id));
      }
  }

  /** The request passes execute's validation. */
  predicate ExecuteRequestOk(userId: Option<string>, roomId: Option<string>, allocations: Option<seq<Allocation>>)
  {
    Truthy(userId) && Truthy(roomId) && allocations.Some? && |allocations.value| > 0
  }

  /** POST /execute: 404 without a caller; 400 without a room id or with
      allocations that are missing, not a list or empty; 500 for a room id that
      is not an ObjectId; 404 for an unknown room; all before any write.
      Otherwise the execution is recorded, the room turns "investing", and the
      analytics document of the room becomes the invested amount (the room's
      collected_amount), the given series and the breakdown. */
  method ExecuteInvestment(db: Db, userId: Option<string>, roomId: Option<string>,
                           allocations: Option<seq<Allocation>>, series: seq<real>, now: Time)
    returns (r: ExecuteReply)
    requires db.Valid()
    modifies db`rooms, db`executions, db`analytics
    ensures db.Valid()
    ensures !Truthy(userId) ==> r == ExecuteError(404)
    ensures Truthy(userId) && !ExecuteRequestOk(userId, roomId, allocations) ==> r == ExecuteError(400)
    ensures ExecuteRequestOk(userId, roomId, allocations) && !IsObjectId(roomId.value) ==> r == ExecuteError(500)
    ensures (ExecuteRequestOk(userId, roomId, allocations) && IsObjectId(roomId.value)
             && FindRoom(old(db.rooms), roomId.value).None?) ==> r == ExecuteError(404)
    ensures r.ExecuteError? ==>
      db.rooms == old(db.rooms) && db.executions == old(db.executions) && db.analytics == old(db.analytics)
    ensures r.Executed? ==>
      ExecuteRequestOk(userId, roomId, allocations) && FindRoom(old(db.rooms), roomId.value).Some?
      && var room := FindRoom(old(db.rooms), roomId.value).value;
      && r == Executed(roomId.value, room.collectedAmount)
      && db.executions == old(db.executions)
           + [Execution(roomId.value, allocations.value, room.collectedAmount, now, userId.value)]
      && db.rooms == StartWrite(old(db.rooms), roomId.value, now)
      && var a := FindFirst(db.analytics, AnalyticsOf(roomId.value));
      && a.Some? && a.value.investedAmount == room.collectedAmount && a.value.series == series
      && a.value.createdAt == now && IsBreakdownOf(a.value.breakdown, room.collectedAmount, allocations.value)
    ensures r.Executed? ==> forall id :: id != roomId.value ==>
      FindFirst(db.analytics, AnalyticsOf(id)) == FindFirst(old(db.analytics), AnalyticsOf(id))
  {
    if !Truthy(userId) {
      return ExecuteError(404);
    }
    if !Truthy(roomId) || allocations.None? || |allocations.value| == 0 {
      return ExecuteError(400);
    }
    var rid := roomId.value;
    if !IsObjectId(rid) {
      return ExecuteError(500);
    }
    var room := FindRoom(db.rooms, rid);
    if room.None? {
      return ExecuteError(404);
    }
    var invested := room.value.collectedAmount;
    StartExecution(db, rid, allocations.value, invested, userId.value, now);
    var breakdown := BuildBreakdown(invested, allocations.value);
    var doc := Analytics(rid, invested, series, breakdown, now);
    AnalyticsWriteStores(db.analytics, doc);
    StoreAnalytics(db, doc);
    r := Executed(rid, invested);
  }

  /** The execution insert and the room's status flip. */
  method StartExecution(db: Db, roomId: string, allocations: seq<Allocation>, invested: real, userId: string,
                        now: Time)
    requires db.Valid()
    modifies db`rooms, db`executions
    ensures db.Valid()
    ensures db.executions == old(db.executions) + [Execution(roomId, allocations, invested, now, userId)]
    ensures db.rooms == StartWrite(old(db.rooms), roomId, now)
  {
    db.executions := db.executions + [Execution(roomId, allocations, invested, now, userId)];
    var i := RoomIndex(db.rooms, roomId);
    if i.Some? {
      db.rooms := db.rooms[i.value := db.rooms[i.value].(status := Investing, hasExecution := true, updatedAt := now)];
    }
  }

  /** The analytics upsert. */
  method StoreAnalytics(db: Db, doc: Analytics)
    requires db.Valid()
    modifies db`analytics
    ensures db.Valid()
    ensures db.analytics == AnalyticsWrite(old(db.analytics), doc)
  {
    AnalyticsWriteStores(db.analytics, doc);
    var k := IndexOf(db.analytics, AnalyticsOf(doc.roomId));
    if k.Some? {
      db.analytics := db.analytics[k.value := doc];
    } else {
      db.analytics := db.analytics + [doc];
    }
  }

  // ---- POST /stop ----

  function StopKey(roomId: string, recId: string, userId: string): StopVote -> bool
  {
    (v: StopVote) => v.roomId == roomId && v.recommendationId == recId && v.userId == userId
  }

  /** The stop votes that count toward one recommendation of one room. */
  function StopScope(roomId: string, recId: string): StopVote -> bool
  {
    (v: StopVote) => v.roomId == roomId && v.recommendationId == recId
  }

  /** The stop votes after the upsert: the caller's existing vote gets a new
      voted_at, or a first one is inserted. */
  function UpsertStop(stops: seq<StopVote>, roomId: string, recId: string, userId: string, stopId: string, now: Time)
    : (r: seq<StopVote>)
    ensures |r| == |stops| + (if FindFirst(stops, StopKey(roomId, recId, userId)).Some? then 0 else 1)
    ensures forall k :: 0 <= k < |stops| && !StopKey(roomId, recId, userId)(stops[k]) ==> r[k] == stops[k]
    ensures exists k :: 0 <= k < |r| && StopKey(roomId, recId, userId)(r[k]) && r[k].votedAt == now
  {
    match IndexOf(stops, StopKey(roomId, recId, userId))
    case Some(i) =>
      var r := stops[i := stops[i].(votedAt := now)];
      assert StopKey(roomId, recId, userId)(r[i]);
      r
    case None =>
      var r := stops + [StopVote(stopId, roomId, recId, userId, now)];
      assert StopKey(roomId, recId, userId)(r[|stops|]);
      r
  }

  /** The upsert keeps one stop vote per key and raises the recommendation's
      count by one for a first vote and by nothing for a repeated one. */
  lemma UpsertStopCount(stops: seq<StopVote>, roomId: string, recId: string, userId: string, stopId: string, now: Time)
    requires StopKeysUnique(stops)
    ensures StopKeysUnique(UpsertStop(stops, roomId, recId, userId, stopId, now))
    ensures FindFirst(UpsertStop(stops, roomId, recId, userId, stopId, now), StopKey(roomId, recId, userId)).Some?
    ensures Count(UpsertStop(stops, roomId, recId, userId, stopId, now), StopScope(roomId, recId))
            == Count(stops, StopScope(roomId, recId))
               + (if FindFirst(stops, StopKey(roomId, recId, userId)).Some? then 0 else 1)
  {
    var r := UpsertStop(stops, roomId, recId, userId, stopId, now);
    match IndexOf(stops, StopKey(roomId, recId, userId))
    case Some(i) =>
      CountUpdate(stops, i, r[i], StopScope(roomId, recId));
      assert r[i] in r;
    case None =>
      CountAppend(stops, r[|stops|], StopScope(roomId, recId));
      assert r[|stops|] in r;
  }

  /** Stopping twice counts the caller once. */
  lemma RepeatedStopVoteNotCounted(stops: seq<StopVote>, roomId: string, recId: string, userId: string,
                                   id1: string, id2: string, t1: Time, t2: Time)
    requires StopKeysUnique(stops)
    ensures var once := UpsertStop(stops, roomId, recId, userId, id1, t1);
      Count(UpsertStop(once, roomId, recId, userId, id2, t2), StopScope(roomId, recId))
      == Count(once, StopScope(roomId, recId))
  {
    UpsertStopCount(stops, roomId, recId, userId, id1, t1);
    UpsertStopCount(UpsertStop(stops, roomId, recId, userId, id1, t1), roomId, recId, userId, id2, t2);
  }

  /** What a stop that reached its threshold pays: nothing without analytics or
      with an empty series, an error when the asset's allocation is null, and
      otherwise the asset's profit. */
  datatype Payout = NoPayout | PayoutError | PayProfit(profit: real)

  function StopPayoutPlan(docs: seq<Analytics>, roomId: string, assetName: Option<string>): (p: Payout)
    ensures p != NoPayout ==> FindFirst(docs, AnalyticsOf(roomId)).Some?
    ensures p.PayProfit? ==>
      var a := FindFirst(docs, AnalyticsOf(roomId)).value;
      |a.series| > 0 && (LastValue(a) <= a.investedAmount ==> p.profit == 0.0)
  {
    match FindFirst(docs, AnalyticsOf(roomId))
    case None => NoPayout
    case Some(a) =>
      if |a.series| == 0 then NoPayout
      else
        match AssetWeight(a.breakdown, FindAsset(a.breakdown, assetName))
        case None => PayoutError
        case Some(w) => PayProfit(AssetProfit(a.investedAmount, LastValue(a), w))
  }

  datatype StopReply = StopError(code: int) | StopCounted(stopped: bool, votes: nat, threshold: int)

  /** The request passes stop's validation. */
  predicate StopRequestOk(userId: Option<string>, roomId: Option<string>, recId: Option<string>)
  {
    Truthy(userId) && Truthy(roomId) && Truthy(recId)
  }

  /** POST /stop: 404 without a caller and 400 without a room or a
      recommendation id, before any write. Otherwise the caller's stop vote is
      upserted; then a room id that is not an ObjectId gives 500. The stop is
      reached iff the room has members and the recommendation's stop votes
      reach the threshold; a reached stop pays the asset's profit to the active
      members in proportion to their stakes (500 when the asset's allocation is
      null). The wallets change by that payout and by nothing else. */
  method StopInvestment(db: Db, userId: Option<string>, roomId: Option<string>, recId: Option<string>,
                        assetName: Option<string>, stopId: string, now: Time)
    returns (r: StopReply)
    requires db.Valid()
    modifies db`stopVotes, db`wallets
    ensures db.Valid()
    ensures !Truthy(userId) ==> r == StopError(404)
    ensures Truthy(userId) && !StopRequestOk(userId, roomId, recId) ==> r == StopError(400)
    ensures !StopRequestOk(userId, roomId, recId) ==> db.stopVotes == old(db.stopVotes)
    ensures StopRequestOk(userId, roomId, recId) ==>
      db.stopVotes == UpsertStop(old(db.stopVotes), roomId.value, recId.value, userId.value, stopId, now)
    ensures StopRequestOk(userId, roomId, recId) && !IsObjectId(roomId.value) ==> r == StopError(500)
    ensures StopRequestOk(userId, roomId, recId) && IsObjectId(roomId.value) ==>
      var n := MemberCountOf(old(db.rooms), roomId.value);
      var votes := Count(db.stopVotes, StopScope(roomId.value, recId.value));
      var reached := n != 0 && votes >= StopThreshold(n);
      var plan := StopPayoutPlan(old(db.analytics), roomId.value, assetName);
      && (reached && plan.PayoutError? <==> r == StopError(500))
      && (r.StopCounted? ==> r == StopCounted(reached, votes, StopThreshold(n)))
      && db.wallets == (if reached && plan.PayProfit? then
                          var members := Filter(old(db.members), ActiveIn(roomId.value));
                          StopPayout(old(db.wallets), members, plan.profit, TotalStake(members), now)
                        else old(db.wallets))
    ensures !StopRequestOk(userId, roomId, recId) || !IsObjectId(roomId.value) ==> db.wallets == old(db.wallets)
    ensures db.wallets == old(db.wallets)
  {
    if !Truthy(userId) {
      return StopError(404);
    }
    if !Truthy(roomId) || !Truthy(recId) {
      return StopError(400);
    }
    var rid, rec, uid := roomId.value, recId.value, userId.value;
    RecordStopVote(db, rid, rec, uid, stopId, now);
    if !IsObjectId(rid) {
      return StopError(500);
    }
    r := TallyStop(db, rid, rec, assetName, now);
  }

  /** The part of stop_investment after the vote is stored: the count against
      the threshold, and the payout once it is reached. */
  method TallyStop(db: Db, rid: string, rec: string, assetName: Option<string>, now: Time) returns (r: StopReply)
    requires db.Valid()
    requires IsObjectId(rid)
    modifies db`wallets
    ensures db.Valid()
    ensures var n := MemberCountOf(db.rooms, rid);
      var votes := Count(db.stopVotes, StopScope(rid, rec));
      var reached := n != 0 && votes >= StopThreshold(n);
      var plan := StopPayoutPlan(db.analytics, rid, assetName);
      && (reached && plan.PayoutError? <==> r == StopError(500))
      && (r.StopCounted? ==> r == StopCounted(reached, votes, StopThreshold(n)))
      && db.wallets == (if reached && plan.PayProfit? then
                          var members := Filter(db.members, ActiveIn(rid));
                          StopPayout(old(db.wallets), members, plan.profit, TotalStake(members), now)
                        else old(db.wallets))
    ensures db.wallets == old(db.wallets)
  {
    var n := MemberCountOf(db.rooms, rid);
    var votes := Count(db.stopVotes, StopScope(rid, rec));
    var threshold := StopThreshold(n);
    if n != 0 && votes >= threshold {
      var plan := StopPayoutPlan(db.analytics, rid, assetName);
      if plan.PayoutError? {
        return StopError(500);
      }
      if plan.PayProfit? {
        PayStop(db, rid, plan.profit, now);
      }
      return StopCounted(true, votes, threshold);
    }
    r := StopCounted(false, votes, threshold);
  }

  /** The stop-vote upsert. */
  method RecordStopVote(db: Db, roomId: string, recId: string, userId: string, stopId: string, now: Time)
    requires db.Valid()
    modifies db`stopVotes
    ensures db.Valid()
    ensures db.stopVotes == UpsertStop(old(db.stopVotes), roomId, recId, userId, stopId, now)
  {
    UpsertStopCount(db.stopVotes, roomId, recId, userId, stopId, now);
    var k := IndexOf(db.stopVotes, StopKey(roomId, recId, userId));
    if k.Some? {
      db.stopVotes := db.stopVotes[k.value := db.stopVotes[k.value].(votedAt := now)];
    } else {
      db.stopVotes := db.stopVotes + [StopVote(stopId, roomId, recId, userId, now)];
    }
  }

  /** The payout of a reached stop over the room's active members; with every
      stake at 0 it credits nobody. */
  method PayStop(db: Db, roomId: string, profit: real, now: Time)
    requires db.Valid()
    modifies db`wallets
    ensures var members := Filter(db.members, ActiveIn(roomId));
      db.wallets == StopPayout(old(db.wallets), members, profit, TotalStake(members), now)
    ensures db.wallets == old(db.wallets)
  {
    var members := Filter(db.members, ActiveIn(roomId));
    ActiveStakesZero(db.members, db.issuedRoomIds, roomId, members);
    StopPayoutZeroStakes(db.wallets, members, profit, now);
    PayStopShares(db, members, profit, TotalStake(members), now);
  }

  /** No member record carries a stake: the stop payout's stakes are all 0. */
  lemma ActiveStakesZero(members: seq<Member>, issued: set<string>, roomId: string, active: seq<Member>)
    requires MembersWellFormed(members, issued)
    requires active == Filter(members, ActiveIn(roomId))
    ensures forall k :: 0 <= k < |active| ==> active[k].contributionAmount == 0.0
  {
    forall k | 0 <= k < |active| ensures active[k].contributionAmount == 0.0 {
      assert active[k] in multiset(members);
      assert active[k] in members;
    }
  }

  // ---- GET /stop/aggregate ----

  /** The users with a stop vote in `s` that `p` selects: the same count as
      InvestmentService.Voters, taken over stop votes instead of votes. */
  function StopVoters(s: seq<StopVote>, p: StopVote -> bool): (r: set<string>)
    ensures forall u :: u in r ==> exists i :: 0 <= i < |s| && p(s[i]) && s[i].userId == u
  {
    if s == [] then {}
    else (if p(s[0]) then {s[0].userId} else {}) + StopVoters(s[1..], p)
  }

  function StopsIn(roomId: string): StopVote -> bool { (v: StopVote) => v.roomId == roomId }

  datatype StopAggregateReply = StopAggregateError(code: int) | StopAggregate(votes: nat, threshold: int)

  /** GET /stop/aggregate: 400 without a room id and 500 for one that is not an
      ObjectId; the threshold is 0 for a room without members; the votes are
      the recommendation's stop votes, or without one the number of distinct
      users with a stop vote in the room. */
  function StopVotesAggregate(rooms: seq<Room>, stops: seq<StopVote>, roomId: Option<string>, recId: Option<string>)
    : (r: StopAggregateReply)
    ensures !Truthy(roomId) ==> r == StopAggregateError(400)
    ensures Truthy(roomId) && !IsObjectId(roomId.value) ==> r == StopAggregateError(500)
    ensures Truthy(roomId) && IsObjectId(roomId.value) ==>
      r.StopAggregate? && r.threshold == AggregateThreshold(MemberCountOf(rooms, roomId.value))
      && (MemberCountOf(rooms, roomId.value) == 0 ==> r.threshold == 0)
      && (Truthy(recId) ==> r.votes == Count(stops, StopScope(roomId.value, recId.value)))
      && (!Truthy(recId) ==> r.votes == |StopVoters(stops, StopsIn(roomId.value))|)
  {
    if !Truthy(roomId) then StopAggregateError(400)
    else if !IsObjectId(roomId.value) then StopAggregateError(500)
    else
      var threshold := AggregateThreshold(MemberCountOf(rooms, roomId.value));
      if Truthy(recId) then StopAggregate(Count(stops, StopScope(roomId.value, recId.value)), threshold)
      else StopAggregate(|StopVoters(stops, StopsIn(roomId.value))|, threshold)
  }

  /** With one stop vote per key, a recommendation's stop votes are one per voter. */
  lemma {:induction false} StopVotesAreVoters(s: seq<StopVote>, roomId: string, recId: string)
    requires StopKeysUnique(s)
    ensures Count(s, StopScope(roomId, recId)) == |StopVoters(s, StopScope(roomId, recId))|
  {
    if s != [] {
      assert StopKeysUnique(s[1..]) by {
        forall i, j | 0 <= i < j < |s[1..]|
          ensures !(s[1..][i].roomId == s[1..][j].roomId
                    && s[1..][i].recommendationId == s[1..][j].recommendationId
                    && s[1..][i].userId == s[1..][j].userId)
        {
          assert s[1..][i] == s[i + 1] && s[1..][j] == s[j + 1];
        }
      }
      StopVotesAreVoters(s[1..], roomId, recId);
    }
  }

  /** A narrower selection has no more voters. */
  lemma {:induction false} StopVotersMonotone(s: seq<StopVote>, p: StopVote -> bool, q: StopVote -> bool)
    requires forall i :: 0 <= i < |s| ==> p(s[i]) ==> q(s[i])
    ensures StopVoters(s, p) <= StopVoters(s, q)
  {
    if s != [] {
      assert forall i :: 0 <= i < |s[1..]| ==> s[1..][i] == s[i + 1];
      StopVotersMonotone(s[1..], p, q);
    }
  }

  lemma SubsetCard(a: set<string>, b: set<string>)
    requires a <= b
    ensures |a| <= |b|
  {
    assert b == a + (b - a);
  }

  /** The per-recommendation votes the aggregate reports never exceed the
      room's distinct voters it reports without a recommendation. */
  lemma StopAggregateBoundedByVoters(rooms: seq<Room>, stops: seq<StopVote>, roomId: string, recId: string)
    requires StopKeysUnique(stops)
    requires roomId != "" && recId != "" && IsObjectId(roomId)
    ensures var one := StopVotesAggregate(rooms, stops, Some(roomId), Some(recId));
      var all := StopVotesAggregate(rooms, stops, Some(roomId), None);
      one.StopAggregate? && all.StopAggregate? && one.votes <= all.votes && one.threshold == all.threshold
  {
    StopVotesAreVoters(stops, roomId, recId);
    StopVotersMonotone(stops, StopScope(roomId, recId), StopsIn(roomId));
    SubsetCard(StopVoters(stops, StopScope(roomId, recId)), StopVoters(stops, StopsIn(roomId)));
  }

  // ---- POST /end ----

  datatype EndReply =
    | EndError(code: int)
    | Ended(totalInvested: real, totalProfit: real, membersCount: nat, distribution: seq<Share>)

  /** The completed contributions end_investment reads for the room. */
  function RoomContributions(contributions: seq<Contribution>, roomId: string): seq<Contribution>
  {
    Filter(contributions, CompletedIn(roomId))
  }

  /** The refusals of POST /end in the order the handler checks them, all before
      any write: 404 without a caller, 400 without a room id, 500 for a room id
      that is not an ObjectId, 404 for an unknown room or a caller with no user
      record, 403 for a caller who is not the room's creator, 404 without an
      analytics document, 500 for an empty series, and 400 when the room's
      completed contributions do not add up to a positive total. None: the end
      goes ahead. */
  function EndRefusal(rooms: seq<Room>, users: map<string, string>, docs: seq<Analytics>,
                      contributions: seq<Contribution>, userId: Option<string>, roomId: Option<string>)
    : (r: Option<int>)
    ensures r.Some? ==> r.value == 400 || r.value == 403 || r.value == 404 || r.value == 500
    ensures r.None? ==>
      Truthy(userId) && Truthy(roomId) && userId.value in users && FindRoom(rooms, roomId.value).Some?
      && FindRoom(rooms, roomId.value).value.creatorId == users[userId.value]
      && FindFirst(docs, AnalyticsOf(roomId.value)).Some?
      && |FindFirst(docs, AnalyticsOf(roomId.value)).value.series| > 0
      && SumBy(RoomContributions(contributions, roomId.value), Amount()) > 0.0
    ensures r == Some(403) <==>
      Truthy(userId) && Truthy(roomId) && userId.value in users && FindRoom(rooms, roomId.value).Some?
      && FindRoom(rooms, roomId.value).value.creatorId != users[userId.value]
  {
    if !Truthy(userId) then Some(404)
    else if !Truthy(roomId) then Some(400)
    else if !IsObjectId(roomId.value) then Some(500)
    else if FindRoom(rooms, roomId.value).None? then Some(404)
    else if userId.value !in users then Some(404)
    else if FindRoom(rooms, roomId.value).value.creatorId != users[userId.value] then Some(403)
    else if FindFirst(docs, AnalyticsOf(roomId.value)).None? then Some(404)
    else if |FindFirst(docs, AnalyticsOf(roomId.value)).value.series| == 0 then Some(500)
    else if SumBy(RoomContributions(contributions, roomId.value), Amount()) <= 0.0 then Some(400)
    else None
  }

  /** The rooms after the closing update_one: the room is closed, without an
      execution, with closed_at and updated_at `now` and the final amounts. */
  function CloseWrite(rooms: seq<Room>, roomId: string, invested: real, finalValue: real, profit: real, now: Time)
    : (r: seq<Room>)
    ensures |r| == |rooms|
    ensures RoomIndex(rooms, roomId).None? ==> r == rooms
    ensures RoomIndex(rooms, roomId).Some? ==>
      var i := RoomIndex(rooms, roomId).value;
      r[i] == rooms[i].(status := Closed, hasExecution := false, closedAt := Some(now), updatedAt := now,
                        finalInvestedAmount := Some(invested), finalPortfolioValue := Some(finalValue),
                        finalProfit := Some(profit))
      && forall j :: 0 <= j < |rooms| && j != i ==> r[j] == rooms[j]
  {
    match RoomIndex(rooms, roomId)
    case None => rooms
    case Some(i) =>
      rooms[i := rooms[i].(status := Closed, hasExecution := false, closedAt := Some(now), updatedAt := now,
                           finalInvestedAmount := Some(invested), finalPortfolioValue := Some(finalValue),
                           finalProfit := Some(profit))]
  }

  /** The profit of an investment: the last series value minus the invested amount. */
  function Profit(a: Analytics): real
    requires |a.series| > 0
  {
    LastValue(a) - a.investedAmount
  }

  /** profit_distribution for ending room `roomId` with `profit`. */
  function EndDistribution(members: seq<Member>, contributions: seq<Contribution>, roomId: string, profit: real)
    : seq<Share>
    requires SumBy(RoomContributions(contributions, roomId), Amount()) != 0.0
  {
    var cs := RoomContributions(contributions, roomId);
    Distribute(Filter(members, ActiveIn(roomId)), Totals(cs), SumBy(cs, Amount()), profit)
  }

  /** POST /end with the payout as corrected (as written, recipients are looked
      up by Firebase uid and nobody is paid; see EndPayoutAsWrittenPaysNobody):
      refused as EndRefusal says, with nothing written. Otherwise each active
      member with completed contributions gets contribution / total of the
      profit (the last series value minus the invested amount), credited to
      that member's wallet, found by database id, as a logged "return"; the room is closed with its
      final amounts; the room's analytics document is deleted; and the reply
      carries the invested amount, the profit, the number of active members and
      the distribution. */
  method EndInvestment(db: Db, userId: Option<string>, roomId: Option<string>, mint: nat -> string, now: Time)
    returns (r: EndReply)
    requires db.Valid()
    modifies db`rooms, db`wallets, db`transactions, db`analytics
    ensures db.Valid()
    ensures var refusal := EndRefusal(old(db.rooms), db.users, old(db.analytics), db.contributions, userId, roomId);
      (r.EndError? <==> refusal.Some?) && (refusal.Some? ==> r == EndError(refusal.value))
    ensures r.EndError? ==>
      db.rooms == old(db.rooms) && db.wallets == old(db.wallets) && db.transactions == old(db.transactions)
      && db.analytics == old(db.analytics)
    ensures r.Ended? ==>
      EndRefusal(old(db.rooms), db.users, old(db.analytics), db.contributions, userId, roomId).None?
      && var a := FindFirst(old(db.analytics), AnalyticsOf(roomId.value)).value;
      var dist := EndDistribution(db.members, db.contributions, roomId.value, Profit(a));
      && r == Ended(a.investedAmount, Profit(a), |Filter(db.members, ActiveIn(roomId.value))|, dist)
      && Ledger(db.wallets, db.transactions)
         == EndPayout(Ledger(old(db.wallets), old(db.transactions)), dist, Recipients(dist), roomId.value,
                      FindRoom(old(db.rooms), roomId.value).value.name, TxIds(mint, |dist|), now)
      && db.rooms == CloseWrite(old(db.rooms), roomId.value, a.investedAmount, LastValue(a), Profit(a), now)
      && db.analytics == RemoveFirst(old(db.analytics), AnalyticsOf(roomId.value))
      && FindFirst(db.analytics, AnalyticsOf(roomId.value)).None?
  {
    if !Truthy(userId) {
      return EndError(404);
    }
    if !Truthy(roomId) {
      return EndError(400);
    }
    var rid := roomId.value;
    if !IsObjectId(rid) {
      return EndError(500);
    }
    var room := FindRoom(db.rooms, rid);
    if room.None? {
      return EndError(404);
    }
    if userId.value !in db.users {
      return EndError(404);
    }
    if room.value.creatorId != db.users[userId.value] {
      return EndError(403);
    }
    var a := FindFirst(db.analytics, AnalyticsOf(rid));
    if a.None? {
      return EndError(404);
    }
    if |a.value.series| == 0 {
      return EndError(500);
    }
    var invested := a.value.investedAmount;
    var profit := Profit(a.value);
    var members := Filter(db.members, ActiveIn(rid));
    var cs := RoomContributions(db.contributions, rid);
    var total, dist := PlanDistribution(members, cs, profit);
    if total <= 0.0 {
      return EndError(400);
    }
    Settle(db, rid, room.value.name, a.value, dist, mint, now);
    r := Ended(invested, profit, |members|, dist);
  }

  /** The user_contributions dict, its total and, when the total is positive,
      profit_distribution: the total is the sum of the completed amounts and
      the distribution gives each active member its share by its summed
      contributions. */
  method PlanDistribution(members: seq<Member>, cs: seq<Contribution>, profit: real)
    returns (total: real, dist: seq<Share>)
    ensures total == SumBy(cs, Amount())
    ensures total > 0.0 ==> dist == Distribute(members, Totals(cs), total, profit)
  {
    var keys, totals := SumContributionsByUser(cs);
    DictTotalIsSum(cs, keys, totals);
    total := SumValues(keys, totals);
    if total <= 0.0 {
      return total, [];
    }
    assert totals == Totals(cs);
    dist := ProfitDistribution(members, totals, total, profit);
  }

  /** The writes of a granted end: the payout, the room's closing (with the
      final value re-read from the analytics document, which is still there)
      and the deletion of the analytics document. */
  method Settle(db: Db, roomId: string, roomName: string, a: Analytics, dist: seq<Share>, mint: nat -> string,
                now: Time)
    requires db.Valid() && |a.series| > 0
    modifies db`rooms, db`wallets, db`transactions, db`analytics
    ensures db.Valid()
    ensures Ledger(db.wallets, db.transactions)
            == EndPayout(Ledger(old(db.wallets), old(db.transactions)), dist, Recipients(dist), roomId, roomName,
                         TxIds(mint, |dist|), now)
    ensures FindFirst(old(db.analytics), AnalyticsOf(roomId)).Some? ==>
      db.rooms == CloseWrite(old(db.rooms), roomId, a.investedAmount, LastValue(a), Profit(a), now)
    ensures db.analytics == RemoveFirst(old(db.analytics), AnalyticsOf(roomId))
    ensures FindFirst(db.analytics, AnalyticsOf(roomId)).None?
  {
    PayShares(db, dist, Recipients(dist), roomId, roomName, TxIds(mint, |dist|), now);
    assert db.analytics == old(db.analytics);
    var finalValue := if FindFirst(db.analytics, AnalyticsOf(roomId)).Some? then LastValue(a) else a.investedAmount;
    ghost var before := db.rooms;
    assert before == old(db.rooms);
    CloseRoom(db, roomId, a.investedAmount, finalValue, Profit(a), now);
    assert db.rooms == CloseWrite(before, roomId, a.investedAmount, finalValue, Profit(a), now);
    DropAnalytics(db, roomId);
  }

  /** The closing update_one. */
  method CloseRoom(db: Db, roomId: string, invested: real, finalValue: real, profit: real, now: Time)
    requires db.Valid()
    modifies db`rooms
    ensures db.Valid()
    ensures db.rooms == CloseWrite(old(db.rooms), roomId, invested, finalValue, profit, now)
  {
    var i := RoomIndex(db.rooms, roomId);
    if i.Some? {
      db.rooms := db.rooms[i.value := db.rooms[i.value].(status := Closed, hasExecution := false,
                                                         closedAt := Some(now), updatedAt := now,
                                                         finalInvestedAmount := Some(invested),
                                                         finalPortfolioValue := Some(finalValue),
                                                         finalProfit := Some(profit))];
    }
  }

  /** analytics.delete_one({'room_id': ...}). */
  method DropAnalytics(db: Db, roomId: string)
    requires db.Valid()
    modifies db`analytics
    ensures db.Valid()
    ensures db.analytics == RemoveFirst(old(db.analytics), AnalyticsOf(roomId))
    ensures FindFirst(db.analytics, AnalyticsOf(roomId)).None?
  {
    AnalyticsRemoved(db.analytics, roomId);
    db.analytics := RemoveFirst(db.analytics, AnalyticsOf(roomId));
  }

  /** With one document per room, deleting the room's document leaves none for
      it, keeps one per room, and leaves every other room's document in place. */
  lemma AnalyticsRemoved(docs: seq<Analytics>, roomId: string)
    requires AnalyticsKeysUnique(docs)
    ensures AnalyticsKeysUnique(RemoveFirst(docs, AnalyticsOf(roomId)))
    ensures FindFirst(RemoveFirst(docs, AnalyticsOf(roomId)), AnalyticsOf(roomId)).None?
    ensures forall id :: id != roomId ==>
      FindFirst(RemoveFirst(docs, AnalyticsOf(roomId)), AnalyticsOf(id)) == FindFirst(docs, AnalyticsOf(id))
  {
    match IndexOf(docs, AnalyticsOf(roomId))
    case None =>
    case Some(i) =>
      var r := RemoveAt(docs, i);
      forall j | 0 <= j < |r| ensures r[j].roomId != roomId {
        if j < i {
          assert r[j] == docs[j];
        } else {
          assert r[j] == docs[j + 1];
        }
      }
      forall id | id != roomId ensures FindFirst(r, AnalyticsOf(id)) == FindFirst(docs, AnalyticsOf(id)) {
        RemoveUnmatched(docs, i, AnalyticsOf(id));
      }
  }

  /** Removing a document the filter does not match keeps the first match. */
  lemma RemoveUnmatched<T>(s: seq<T>, i: nat, p: T -> bool)
    requires i < |s| && !p(s[i])
    ensures FindFirst(RemoveAt(s, i), p) == FindFirst(s, p)
  {
    var r := RemoveAt(s, i);
    match IndexOf(s, p)
    case None =>
      assert forall j :: 0 <= j < |r| ==> r[j] == s[if j < i then j else j + 1];
    case Some(k) =>
      var k' := if k < i then k else k - 1;
      assert r[k'] == s[k];
      forall j | 0 <= j < k' ensures !p(r[j]) {
        assert r[j] == s[if j < i then j else j + 1];
      }
      IndexOfAt(r, p, k');
  }

  /** An ended investment cannot be ended again: the second call finds no
      analytics document and is refused with 404, so nothing is paid twice. */
  lemma EndTwiceRefused(rooms: seq<Room>, users: map<string, string>, docs: seq<Analytics>,
                        contributions: seq<Contribution>, userId: Option<string>, roomId: Option<string>,
                        invested: real, finalValue: real, profit: real, now: Time)
    requires AnalyticsKeysUnique(docs)
    requires EndRefusal(rooms, users, docs, contributions, userId, roomId).None?
    ensures var closed := CloseWrite(rooms, roomId.value, invested, finalValue, profit, now);
      EndRefusal(closed, users, RemoveFirst(docs, AnalyticsOf(roomId.value)), contributions, userId, roomId)
      == Some(404)
  {
    var rid := roomId.value;
    var closed := CloseWrite(rooms, rid, invested, finalValue, profit, now);
    var i := RoomIndex(rooms, rid).value;
    assert FindRoom(closed, rid) == Some(closed[i]) by {
      forall j | 0 <= j < i ensures !RoomById(Lower(rid))(closed[j]) {
        assert closed[j] == rooms[j];
      }
      IndexOfAt(closed, RoomById(Lower(rid)), i);
    }
    AnalyticsRemoved(docs, rid);
  }

  /** The active members of one room have distinct user ids. */
  lemma ActiveMembersDistinct(members: seq<Member>, roomId: string, active: seq<Member>)
    requires MemberKeysUnique(members)
    requires active == Filter(members, ActiveIn(roomId))
    ensures DistinctKeys(active, UserOf())
  {
    FilterPairwise(members, ActiveIn(roomId), KeysDiffer());
    forall i, j | 0 <= i < j < |active| ensures UserOf()(active[i]) != UserOf()(active[j]) {
      assert KeysDiffer()(active[i], active[j]);
    }
  }

  /** When every completed contributor of the room is one of its active members
      and every amount is positive, the shares of an end add up to exactly the
      profit. */
  lemma EndSplitsProfit(members: seq<Member>, contributions: seq<Contribution>, roomId: string, profit: real,
                        active: seq<Member>, cs: seq<Contribution>)
    requires MemberKeysUnique(members)
    requires active == Filter(members, ActiveIn(roomId)) && cs == RoomContributions(contributions, roomId)
    requires forall k :: 0 <= k < |cs| ==> cs[k].amount > 0.0 && HasKey(active, UserOf(), cs[k].userId)
    requires SumBy(cs, Amount()) > 0.0
    ensures SumBy(EndDistribution(members, contributions, roomId, profit), ProfitShare()) == profit
  {
    ActiveMembersDistinct(members, roomId, active);
    DistributionSplitsProfit(active, cs, Totals(cs), profit);
  }

  /** Under the same conditions, and when every paid member has a wallet, an
      end raises the total balance held in wallets by exactly the profit. */
  lemma EndPaysOutProfit(members: seq<Member>, contributions: seq<Contribution>, roomId: string, profit: real,
                         active: seq<Member>, cs: seq<Contribution>, l: Ledger, roomName: string,
                         mint: nat -> string, now: Time)
    requires MemberKeysUnique(members)
    requires active == Filter(members, ActiveIn(roomId)) && cs == RoomContributions(contributions, roomId)
    requires forall k :: 0 <= k < |cs| ==> cs[k].amount > 0.0 && HasKey(active, UserOf(), cs[k].userId)
    requires SumBy(cs, Amount()) > 0.0
    requires AllHaveWallets(l.wallets, EndDistribution(members, contributions, roomId, profit))
    ensures var dist := EndDistribution(members, contributions, roomId, profit);
      SumBy(EndPayout(l, dist, Recipients(dist), roomId, roomName, TxIds(mint, |dist|), now).wallets, Balance())
      == SumBy(l.wallets, Balance()) + profit
  {
    var dist := EndDistribution(members, contributions, roomId, profit);
    EndSplitsProfit(members, contributions, roomId, profit, active, cs);
    EndPayoutCreditsShares(l, dist, roomId, roomName, TxIds(mint, |dist|), now);
  }
}
