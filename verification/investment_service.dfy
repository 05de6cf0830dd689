/**
 * InvestmentService: members vote "approve" or "reject" on a recommendation;
 * one vote is kept per (room, recommendation, user) and votes are counted per
 * room, optionally per recommendation.
 */
module InvestmentService {
  import opened Base
  import opened Seqs
  import opened Store

  /** VoteCreate. */
  datatype VoteCreate = VoteCreate(roomId: string, recommendationId: string, vote: string)

  /** The filter of cast_vote's update_one and find_one. */
  function VoteKey(roomId: string, recId: string, userId: string): Vote -> bool
  {
    (v: Vote) => v.roomId == roomId && v.recommendationId == recId && v.userId == userId
  }

  // ---- cast_vote ----

  /** The votes collection after cast_vote's upsert: the key's vote gets the new
      choice and updated_at, keeping its id and created_at; a first vote is
      inserted with both timestamps `now`. */
  function UpsertVote(votes: seq<Vote>, userId: string, data: VoteCreate, voteId: string, now: Time): (r: seq<Vote>)
    ensures |r| == |votes| + (if FindFirst(votes, VoteKey(data.roomId, data.recommendationId, userId)).Some? then 0 else 1)
    ensures forall k :: 0 <= k < |votes| && !VoteKey(data.roomId, data.recommendationId, userId)(votes[k])
                        ==> r[k] == votes[k]
    ensures exists k :: 0 <= k < |r| && VoteKey(data.roomId, data.recommendationId, userId)(r[k])
                        && r[k].vote == data.vote && r[k].updatedAt == now
  {
    match IndexOf(votes, VoteKey(data.roomId, data.recommendationId, userId))
    case Some(i) =>
      var r := votes[i := votes[i].(vote := data.vote, updatedAt := now)];
      assert VoteKey(data.roomId, data.recommendationId, userId)(r[i]);
      r
    case None =>
      var r := votes + [Vote(voteId, data.roomId, data.recommendationId, userId, data.vote, now, now)];
      assert VoteKey(data.roomId, data.recommendationId, userId)(r[|votes|]);
      r
  }

  /** At most one stored vote per key, when keys are unique. */
  lemma {:induction false} UniqueKeyCount(votes: seq<Vote>, roomId: string, recId: string, userId: string)
    requires VoteKeysUnique(votes)
    ensures Count(votes, VoteKey(roomId, recId, userId)) <= 1
  {
    if votes != [] {
      var key := VoteKey(roomId, recId, userId);
      assert VoteKeysUnique(votes[1..]) by {
        forall i, j | 0 <= i < j < |votes[1..]|
          ensures !(votes[1..][i].roomId == votes[1..][j].roomId
                    && votes[1..][i].recommendationId == votes[1..][j].recommendationId
                    && votes[1..][i].userId == votes[1..][j].userId)
        {
          assert votes[1..][i] == votes[i + 1] && votes[1..][j] == votes[j + 1];
        }
      }
      if key(votes[0]) {
        forall i | 0 <= i < |votes[1..]| ensures !key(votes[1..][i]) {
          assert votes[1..][i] == votes[i + 1];
        }
        CountNone(votes[1..], key);
      } else {
        UniqueKeyCount(votes[1..], roomId, recId, userId);
      }
    }
  }

  /** The upsert keeps one vote per key. */
  lemma UpsertKeepsKeysUnique(votes: seq<Vote>, userId: string, data: VoteCreate, voteId: string, now: Time)
    requires VoteKeysUnique(votes)
    ensures VoteKeysUnique(UpsertVote(votes, userId, data, voteId, now))
  {
  }

  /** After a vote the key holds exactly one stored vote, with the latest choice
      and updated_at `now`; a re-vote keeps the first vote's id and created_at,
      and every vote under another key is untouched. */
  lemma UpsertStoresLatest(votes: seq<Vote>, userId: string, data: VoteCreate, voteId: string, now: Time)
    requires VoteKeysUnique(votes)
    ensures var key := VoteKey(data.roomId, data.recommendationId, userId);
      var r := UpsertVote(votes, userId, data, voteId, now);
      var v := FindFirst(r, key);
      && v.Some? && v.value.vote == data.vote && v.value.updatedAt == now
      && Count(r, key) == 1
      && (FindFirst(votes, key).Some? ==>
            |r| == |votes| && v.value.id == FindFirst(votes, key).value.id
            && v.value.createdAt == FindFirst(votes, key).value.createdAt)
      && (FindFirst(votes, key).None? ==>
            |r| == |votes| + 1 && v.value.id == voteId && v.value.createdAt == now)
      && (forall j :: 0 <= j < |votes| && !key(votes[j]) ==> r[j] == votes[j])
  {
    var key := VoteKey(data.roomId, data.recommendationId, userId);
    var r := UpsertVote(votes, userId, data, voteId, now);
    UpsertKeepsKeysUnique(votes, userId, data, voteId, now);
    UniqueKeyCount(r, data.roomId, data.recommendationId, userId);
    match IndexOf(votes, key)
    case Some(i) =>
      IndexOfAt(r, key, i);
      CountPositive(r, key, i);
    case None =>
      IndexOfAt(r, key, |votes|);
      CountAppend(votes, r[|votes|], key);
      CountNone(votes, key);
  }

  /** Voting twice on one key leaves a single stored vote holding the second
      choice, created at the first call. */
  lemma VoteTwice(votes: seq<Vote>, userId: string, first: VoteCreate, second: VoteCreate,
                  id1: string, id2: string, t1: Time, t2: Time)
    requires VoteKeysUnique(votes)
    requires first.roomId == second.roomId && first.recommendationId == second.recommendationId
    ensures var key := VoteKey(first.roomId, first.recommendationId, userId);
      var r := UpsertVote(UpsertVote(votes, userId, first, id1, t1), userId, second, id2, t2);
      FindFirst(r, key).Some? &&
      var v := FindFirst(r, key).value;
      Count(r, key) == 1 && v.vote == second.vote && v.updatedAt == t2
      && v.createdAt == (if FindFirst(votes, key).Some? then FindFirst(votes, key).value.createdAt else t1)
  {
    var once := UpsertVote(votes, userId, first, id1, t1);
    UpsertStoresLatest(votes, userId, first, id1, t1);
    UpsertKeepsKeysUnique(votes, userId, first, id1, t1);
    UpsertStoresLatest(once, userId, second, id2, t2);
  }

  /** cast_vote: upserts the caller's vote and reads it back by its key. */
  method CastVote(db: Db, userId: string, data: VoteCreate, voteId: string, now: Time) returns (r: Option<Vote>)
    requires db.Valid()
    modifies db`votes
    ensures db.Valid()
    ensures db.votes == UpsertVote(old(db.votes), userId, data, voteId, now)
    ensures r == FindFirst(db.votes, VoteKey(data.roomId, data.recommendationId, userId))
    ensures r.Some? && r.value.vote == data.vote && r.value.userId == userId && r.value.updatedAt == now
  {
    UpsertStoresLatest(db.votes, userId, data, voteId, now);
    UpsertKeepsKeysUnique(db.votes, userId, data, voteId, now);
    var key := VoteKey(data.roomId, data.recommendationId, userId);
    var i := IndexOf(db.votes, key);
    if i.Some? {
      db.votes := db.votes[i.value := db.votes[i.value].(vote := data.vote, updatedAt := now)];
    } else {
      db.votes := db.votes + [Vote(voteId, data.roomId, data.recommendationId, userId, data.vote, now, now)];
    }
    r := FindFirst(db.votes, key);
  }

  // ---- get_aggregate ----

  /** VoteAggregate. */
  datatype VoteAggregate = VoteAggregate(roomId: string, recommendationId: Option<string>,
                                         approve: nat, reject: nat, total: int)

  /** The votes get_aggregate looks at: the room's, and only the recommendation's
      when a non-empty one is given. */
  function InScope(roomId: string, recId: Option<string>): Vote -> bool
  {
    (v: Vote) => v.roomId == roomId && (Truthy(recId) ==> v.recommendationId == recId.value)
  }

  function WithChoice(roomId: string, recId: Option<string>, choice: string): Vote -> bool
  {
    (v: Vote) => InScope(roomId, recId)(v) && v.vote == choice
  }

  /** get_aggregate: counts of "approve" and "reject" in scope; `total` is the
      caller's member count as given. `storeFailed` stands for a count query that
      raises, after which both counts are 0. */
  function GetAggregate(votes: seq<Vote>, roomId: string, recId: Option<string>, totalMembers: int, storeFailed: bool)
    : (a: VoteAggregate)
    ensures a.roomId == roomId && a.recommendationId == recId && a.total == totalMembers
    ensures storeFailed ==> a.approve == 0 && a.reject == 0
    ensures a.approve + a.reject <= Count(votes, InScope(roomId, recId))
  {
    if storeFailed then VoteAggregate(roomId, recId, 0, 0, totalMembers)
    else
      CountDisjoint(votes, WithChoice(roomId, recId, "approve"), WithChoice(roomId, recId, "reject"),
                    InScope(roomId, recId));
      VoteAggregate(roomId, recId, Count(votes, WithChoice(roomId, recId, "approve")),
                    Count(votes, WithChoice(roomId, recId, "reject")), totalMembers)
  }

  /** One more stored vote moves exactly the count of its choice by one, and only
      when it is in scope: a vote for another room, for another recommendation
      (when one is asked for) or with any other string counts toward neither. */
  lemma AggregateCountsNewVote(votes: seq<Vote>, v: Vote, roomId: string, recId: Option<string>, total: int)
    ensures var before := GetAggregate(votes, roomId, recId, total, false);
      var after := GetAggregate(votes + [v], roomId, recId, total, false);
      var counted := InScope(roomId, recId)(v);
      after.approve == before.approve + (if counted && v.vote == "approve" then 1 else 0)
      && after.reject == before.reject + (if counted && v.vote == "reject" then 1 else 0)
  {
    CountAppend(votes, v, WithChoice(roomId, recId, "approve"));
    CountAppend(votes, v, WithChoice(roomId, recId, "reject"));
  }

  /** Without a recommendation, every vote of the room counts, whichever
      recommendation it is for. */
  lemma AggregateSpansRecommendations(votes: seq<Vote>, roomId: string, total: int)
    ensures var all := GetAggregate(votes, roomId, None, total, false);
      all.approve == Count(votes, (v: Vote) => v.roomId == roomId && v.vote == "approve")
      && all.reject == Count(votes, (v: Vote) => v.roomId == roomId && v.vote == "reject")
  {
    forall i | 0 <= i < |votes|
      ensures InScope(roomId, None)(votes[i]) == (votes[i].roomId == roomId)
    {
      assert !Truthy(None);
    }
    CountSame(votes, WithChoice(roomId, None, "approve"), (v: Vote) => v.roomId == roomId && v.vote == "approve");
    CountSame(votes, WithChoice(roomId, None, "reject"), (v: Vote) => v.roomId == roomId && v.vote == "reject");
  }

  /** The users with a vote in `s` that `p` selects. */
  function Voters(s: seq<Vote>, p: Vote -> bool): (r: set<string>)
    ensures forall u :: u in r ==> exists i :: 0 <= i < |s| && p(s[i]) && s[i].userId == u
  {
    if s == [] then {}
    else (if p(s[0]) then {s[0].userId} else {}) + Voters(s[1..], p)
  }

  /** With one vote per key, the votes for one recommendation are one per voter. */
  lemma {:induction false} VotesAreVoters(s: seq<Vote>, roomId: string, recId: string)
    requires VoteKeysUnique(s)
    requires recId != ""
    ensures Count(s, InScope(roomId, Some(recId))) == |Voters(s, InScope(roomId, Some(recId)))|
  {
    if s != [] {
      var p := InScope(roomId, Some(recId));
      assert VoteKeysUnique(s[1..]) by {
        forall i, j | 0 <= i < j < |s[1..]|
          ensures !(s[1..][i].roomId == s[1..][j].roomId
                    && s[1..][i].recommendationId == s[1..][j].recommendationId
                    && s[1..][i].userId == s[1..][j].userId)
        {
          assert s[1..][i] == s[i + 1] && s[1..][j] == s[j + 1];
        }
      }
      VotesAreVoters(s[1..], roomId, recId);
    }
  }

  /** For one recommendation, approvals and rejections together never exceed the
      number of distinct voters. */
  lemma AggregateBoundedByVoters(votes: seq<Vote>, roomId: string, recId: string, total: int)
    requires VoteKeysUnique(votes)
    requires recId != ""
    ensures var a := GetAggregate(votes, roomId, Some(recId), total, false);
      a.approve + a.reject <= |Voters(votes, InScope(roomId, Some(recId)))|
  {
    VotesAreVoters(votes, roomId, recId);
  }
}
