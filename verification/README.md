# Investa ledger in Dafny

Investa is a Flask and MongoDB backend for group investment. Users pool money
in **rooms**. Each user holds a **wallet**, topped up by deposits, and
contributes from it to rooms. A room whose collected amount reaches its goal
becomes *ready*. Its creator executes an investment with an asset allocation,
which turns the room to *investing*. Members can vote to stop a single asset,
which pays that asset's profit share out. The creator ends the investment,
which distributes profit in proportion to contributions and closes the room.
Deleting a room or leaving one refunds what was contributed. Withdrawals are
requested and then move through their own status lifecycle. Every request
carries a Firebase bearer token.

This project models that ledger and proves properties of the model:

- Every Mongo collection (rooms, room members, votes, stop votes,
  contributions, wallets, wallet transactions, withdrawals, analytics,
  executions) is a `seq` field of one class, `Store.Db`, in insertion order.
- `find_one`, `update_one` and `delete_one` act on the first matching
  document. `count_documents` is a count, and `find` with sort, skip and
  limit is `Seqs.Query`.
- The users collection is a read-only map from Firebase uid to database id.
- Each service operation and each HTTP handler is one method, or one pure
  function when it only reads. Its contract states:
  - the status code for each refusal, in the order the handler checks;
  - the complete new state on success;
  - that nothing is written on a refusal.
- Pure specification functions describe:
  - balance changes by transaction type;
  - the upsert of a vote;
  - the stop threshold `max(1, int(0.7 n + 0.999))`;
  - the breakdown of an execution;
  - proportional profit distribution;
  - the refund loops.

  Lemmas relate these functions to one another, for example:
  - a vote cast twice is stored once, with the latest choice;
  - the distributed shares sum to the profit;
  - a refund raises the total balance by exactly the refunded amount;
  - a second `end_investment` is refused.
- Invariants the store keeps are collected in `Db.Valid()`:
  - room ids are unique and were minted by Mongo;
  - `current_members` equals the number of member records that have not
    left;
  - (room, user) member keys are unique, and so are vote keys and stop-vote
    keys;
  - every member's `contribution_amount` is 0, because nothing in the code
    ever writes it after the insert.

Inputs the code takes from the environment are parameters:

- the current time, an integer `now`;
- ids Mongo mints, such as `id` and `roomId`, or `mint: nat -> string` inside
  loops;
- the six random draws behind a room code;
- the hexadecimal string of a `uuid4` behind the `TOP-`, `WTH-` and `TXN-`
  references;
- the Firebase token verifier, a function from token to uid.

Money is `real`.

Two behaviours of the code are modelled as they are, because they follow
from how it is written and are not evidently unintended:

- `leave_room` marks nothing as refunded. A caller who leaves twice is
  refunded again on the second call, which is then answered with 400
  (`RoomRoutes.LeaveAgainRefundsAgain`).
- `stop_investment` pays nothing: every stake is the member's
  `contribution_amount`, which stays 0 (`Settlement.StopPayoutZeroStakes`).

## Model

| member | source | states |
|---|---|---|
| Base.HexReference | Investa-Backend/app/routes/wallet.py:124 | a generated reference is the prefix followed by exactly 8 characters, each an upper-case hexadecimal digit |
| Store.FindRoom | Investa-Backend/app/services/room_service.py:81-101 | a room is found only for a valid ObjectId, is stored, and has that id, compared case-insensitively; for a valid id, no room is found exactly when none is stored under it |
| Store.RoomIndex | Investa-Backend/app/services/room_service.py:188-215 | the position update_one writes holds the room that get_room_by_id finds, and there is no position exactly when no room is found |
| Store.FindWithdrawal | Investa-Backend/app/services/withdrawal_service.py:135-155 | a withdrawal is found only for a valid ObjectId, is stored, and has that id, compared case-insensitively; for a valid id, none is found exactly when none is stored under it |
| Store.WithdrawalIndex | Investa-Backend/app/services/withdrawal_service.py:215-218 | the position update_one writes holds the withdrawal that get_withdrawal_by_id finds, and there is no position exactly when none is found |
| WalletService.GetWalletByUserId | Investa-Backend/app/services/wallet_service.py:75-92 | the wallet found is stored and belongs to the user; there is none exactly when no stored wallet belongs to the user |
| WalletService.GetUserTransactions | Investa-Backend/app/services/wallet_service.py:225-260 | every transaction listed is stored and is the user's; with a non-empty type, all are of that type; newest first; at most abs(limit) of them when limit is not 0; a negative skip lists nothing; with no paging, exactly the user's (typed) transactions |
| WalletService.ApplyBalanceChange | Investa-Backend/app/services/wallet_service.py:109-138 | a write exists exactly for deposit, return, withdrawal and contribution; credits add the amount to the balance and debits subtract it; only a deposit raises total_deposited, only a withdrawal total_withdrawn, only a return total_returns; updated_at is the current time; no other field changes |
| WalletService.LedgerBalance | Investa-Backend/app/services/wallet_service.py:114-138 | deposits, returns and withdrawals keep deposited + returns - withdrawn - balance unchanged; a contribution raises it by the amount, as money committed to a room |
| WalletService.CompensationRaisesDeposits | Investa-Backend/app/services/wallet_service.py:114-138 | a contribution debit followed by a compensating deposit restores the balance but counts the amount as deposited a second time |
| WalletService.UpdateWalletBalance | Investa-Backend/app/services/wallet_service.py:94-149 | succeeds exactly when the wallet exists and the type is one of the four; the new collection is that wallet rewritten by the type's change; a failure writes nothing; the balance may go negative because it is never checked |
| WalletService.StoredWalletFound | Investa-Backend/app/services/wallet_service.py:56-69 | a stored wallet is found by its own id |
| WalletService.CreateWallet | Investa-Backend/app/services/wallet_service.py:27-54 | get-or-create: an existing wallet of the user is returned and nothing is written; otherwise an empty KES wallet with zero totals is appended; afterwards the user's wallet is the one returned |
| WalletService.NewTx | Investa-Backend/app/services/wallet_service.py:154-167 | a new transaction is pending, has no completed_at and keeps the reference it was given |
| WalletService.RecordTxIdempotent | Investa-Backend/app/services/wallet_service.py:169-185 | recording a second transaction with the same reference leaves the log as the first one left it |
| WalletService.RecordTxKeepsReferencesUnique | Investa-Backend/app/services/wallet_service.py:169-190 | if references are unique in the log, they stay unique after create_transaction |
| WalletService.CreateTransaction | Investa-Backend/app/services/wallet_service.py:151-196 | returns the transaction already stored under the reference and writes nothing, or appends a new pending one and returns it; afterwards the reference finds the transaction returned |
| WalletService.WithTxStatus | Investa-Backend/app/services/wallet_service.py:266-268 | sets the status; sets completed_at only when one is given and keeps the old value otherwise; no other field changes |
| WalletService.UpdateTransactionStatus | Investa-Backend/app/services/wallet_service.py:262-279 | only the first transaction with the id is rewritten; the result is true exactly when that transaction exists and the write changed it |
| WalletService.RecordCompletedTx | Investa-Backend/app/services/wallet_service.py:151-196 | the log is what create_transaction followed by update_transaction_status(completed, now) of the transaction it returned leaves |
| InvestmentService.UniqueKeyCount | Investa-Backend/app/services/investment_service.py:35-43 | while keys are unique, at most one vote is stored per (room, recommendation, user) |
| InvestmentService.UpsertKeepsKeysUnique | Investa-Backend/app/services/investment_service.py:35-43 | the upsert never stores a second vote under a key |
| InvestmentService.UpsertStoresLatest | Investa-Backend/app/services/investment_service.py:19-43 | after the upsert the key holds exactly one vote, with the new choice and updated_at now; a re-vote keeps the first vote's id and created_at and does not grow the collection; a first vote is appended with created_at now; votes under other keys are untouched |
| InvestmentService.VoteTwice | Investa-Backend/app/services/investment_service.py:19-43 | voting twice on one key leaves one vote holding the second choice, created at the first vote |
| InvestmentService.CastVote | Investa-Backend/app/services/investment_service.py:19-57 | the collection is the upsert's result and the vote read back by its key is the caller's, with the new choice |
| InvestmentService.UpsertVote | Investa-Backend/app/services/investment_service.py:19-43 | the upsert grows the collection only when the key has no vote yet, leaves every vote under another key as it was, and stores a vote under the key with the new choice and updated_at now |
| InvestmentService.GetAggregate | Investa-Backend/app/services/investment_service.py:59-77 | room, recommendation and total are echoed back; a failed query gives 0 and 0; approvals plus rejections never exceed the votes in scope |
| InvestmentService.AggregateCountsNewVote | Investa-Backend/app/services/investment_service.py:61-65 | one more stored vote raises exactly the count of its own choice by one, and only when it is for the room (and for the recommendation, if one was given); any other vote string counts toward neither |
| InvestmentService.AggregateSpansRecommendations | Investa-Backend/app/services/investment_service.py:61-65 | without a recommendation, every vote of the room counts, whatever recommendation it is for |
| InvestmentService.Voters | Investa-Backend/app/services/investment_service.py:61-65 | every user listed has a vote that the filter selects |
| InvestmentService.VotesAreVoters | Investa-Backend/app/services/investment_service.py:35-43 | with one vote per key, a recommendation's votes are one per distinct voter |
| InvestmentService.AggregateBoundedByVoters | Investa-Backend/app/services/investment_service.py:59-72 | for one recommendation, approvals plus rejections never exceed the number of distinct voters |
| Settlement.StopThreshold | Investa-Backend/app/routes/investments.py:194 | the stop threshold is never below 1 |
| Settlement.ThresholdIsCeiling | Investa-Backend/app/routes/investments.py:194 | for n members the float formula max(1, int(0.7n + 0.999)) equals the integer max(1, ceil(7n/10)) |
| Settlement.ThresholdMeansSeventyPercent | Investa-Backend/app/routes/investments.py:190-196 | with at least one member, the vote count reaches the threshold exactly when it is at least 70% of the members |
| Settlement.ThresholdOfFive | Investa-Backend/app/routes/investments.py:194 | five members need four stop votes |
| Settlement.AggregateThreshold | Investa-Backend/app/routes/investments.py:245-247 | the reported threshold is 0 for a room with no members and the stop threshold otherwise |
| Settlement.BuildBreakdown | Investa-Backend/app/routes/investments.py:123-127 | one entry per allocation, in order, with its name and allocation, invested * allocation / 100 (a missing allocation counting as 0) and the palette colour of its position, cycling through six colours |
| Settlement.BreakdownSplitsInvested | Investa-Backend/app/routes/investments.py:125-127 | the breakdown amounts add up to the invested amount times the total allocation / 100, so to all of it when the allocations add up to 100 |
| Settlement.FindAsset | Investa-Backend/app/routes/investments.py:203-204 | the asset chosen is an entry of the breakdown named as the request's asset_name |
| Settlement.AssetWeight | Investa-Backend/app/routes/investments.py:205-207 | an asset with a non-zero allocation weighs allocation / 100; no weight exists (float(None) raises) exactly when the asset was stored with a null allocation |
| Settlement.AssetProfit | Investa-Backend/app/routes/investments.py:207 | the asset's profit is never negative for a non-negative weight, and it is 0 when the last value does not exceed the invested amount |
| Settlement.TotalStake | Investa-Backend/app/routes/investments.py:211 | the total stake is never 0, because a zero sum becomes 1 |
| Settlement.PayStopShares | Investa-Backend/app/routes/investments.py:212-219 | the wallets after the loop are the stop payout: each member with a positive share and a wallet is credited that share as a return, in member order |
| Settlement.CreditShareRaisesBalance | Investa-Backend/app/routes/investments.py:213-219 | one credited share raises the total balance by exactly the share or leaves it unchanged |
| Settlement.StopPayoutNeverDebits | Investa-Backend/app/routes/investments.py:212-219 | a stop payout never lowers the total balance held in wallets |
| Settlement.StopPayoutZeroStakes | Investa-Backend/app/routes/investments.py:209-216 | when every stake (contribution_amount) is 0, every share is 0 and the payout changes no wallet |
| Distribution.UserTotalAppend | Investa-Backend/app/routes/investments.py:319-325 | one more contribution adds its amount to its own user's total and nothing to anyone else's |
| Distribution.UserTotalNone | Investa-Backend/app/routes/investments.py:339 | a user without a contribution has a total of 0, as user_contributions.get(user_id, 0) gives |
| Distribution.UserTotalPositive | Investa-Backend/app/routes/investments.py:337-340 | with positive amounts, a user's total is never negative, and it is positive exactly when the user contributed |
| Distribution.SumContributionsByUser | Investa-Backend/app/routes/investments.py:317-325 | the dict's keys are distinct and are exactly the users with a completed contribution, and each maps to the sum of that user's amounts |
| Distribution.Totals | Investa-Backend/app/routes/investments.py:317-325 | the map has a key exactly for each contributor, holding that user's total |
| Distribution.TotalOverCons | Investa-Backend/app/routes/investments.py:319-328 | over distinct users, one more contribution adds its amount once if its user is among them and not at all otherwise |
| Distribution.Regroup | Investa-Backend/app/routes/investments.py:319-328 | summing the per-user totals over distinct users that include every contributor gives the sum of all the amounts |
| Distribution.DictTotalIsSum | Investa-Backend/app/routes/investments.py:327-328 | total_contributions, the sum of the dict's values, is the sum of all completed amounts of the room |
| Distribution.Entry | Investa-Backend/app/routes/investments.py:341-347 | an entry keeps the member and its contribution; profit_share * total == contribution * profit; total_return - contribution == profit_share |
| Distribution.ProfitDistribution | Investa-Backend/app/routes/investments.py:335-347 | the loop builds exactly the distribution: one entry per member with a positive total, in member order |
| Distribution.DistributeEntries | Investa-Backend/app/routes/investments.py:336-347 | every entry is a member whose contribution, read from the dict, is positive; its share is its contribution over the total times the profit; its return is contribution plus share |
| Distribution.SharesProportional | Investa-Backend/app/routes/investments.py:336-347 | the shares split the profit in proportion: their sum times the total equals the distributed contributions times the profit |
| Distribution.DistributedIsMemberTotal | Investa-Backend/app/routes/investments.py:336-347 | the distributed contributions add up to the members' own totals |
| Distribution.DistributedIsEverything | Investa-Backend/app/routes/investments.py:312-347 | when every contributor is an active member, listed once, the distributed contributions are all the completed amounts |
| Distribution.DistributionSplitsProfit | Investa-Backend/app/routes/investments.py:309-347 | under the same conditions the profit shares add up to exactly total_profit, a loss included |
| Distribution.Cancel | Investa-Backend/app/routes/investments.py:341 | a sum of shares proportional to a non-zero total that equals the contributions is the whole profit |
| Distribution.RecipientsAsWritten | Investa-Backend/app/routes/investments.py:357-363 | as written, each entry's recipient is the user whose Firebase uid equals the member's database id, one per entry |
| Distribution.Recipients | Investa-Backend/app/routes/investments.py:357-365 | corrected: each entry's recipient is the member's own database id |
| Distribution.PayShares | Investa-Backend/app/routes/investments.py:357-394 | the ledger after the loop is the payout of the distribution, share by share in order |
| Distribution.PayOne | Investa-Backend/app/routes/investments.py:358-394 | one iteration: no recipient or no wallet writes nothing; otherwise the share is credited as a return and, once the credit succeeds, logged with reference INV-END-… and marked completed |
| Distribution.EndPayoutAsWrittenPaysNobody | Investa-Backend/app/routes/investments.py:357-363 | as written, when no member's database id is also a Firebase uid, the payout changes neither wallets nor transactions |
| Distribution.BalanceWriteKeepsOwners | Investa-Backend/app/routes/investments.py:368-372 | a return credit keeps the number of wallets and each wallet's owner |
| Distribution.EndPayoutCreditsShares | Investa-Backend/app/routes/investments.py:357-394 | corrected: when every member paid has a wallet, the total balance rises by exactly the sum of the profit shares |
| InvestmentRoutes.CastVoteRoute | Investa-Backend/app/routes/investments.py:18-42 | 404 without a caller and 400 without a body, with nothing written; otherwise 200, the caller's vote upserted, and the vote returned holds the caller and the choice |
| InvestmentRoutes.VoteAggregateRoute | Investa-Backend/app/routes/investments.py:45-63 | 400 exactly when room_id is missing or empty; otherwise the approve and reject counts in scope, with the room's current_members as the total, 0 when the id names no room |
| InvestmentRoutes.StartWrite | Investa-Backend/app/routes/investments.py:101-108 | the room the id names turns investing, has_execution true and updated_at now, whatever its status; every other room is untouched; an unknown id writes nothing |
| InvestmentRoutes.AnalyticsWriteStores | Investa-Backend/app/routes/investments.py:129-136 | the upsert keeps one analytics document per room; the room's document becomes the new one; every other room's document stays as it was |
| InvestmentRoutes.ExecuteInvestment | Investa-Backend/app/routes/investments.py:66-141 | 404 without a caller; 400 without room_id or with missing or empty allocations; 500 for an id that is not an ObjectId; 404 for an unknown room; none of these writes anything; otherwise the execution is appended, the room starts investing, and the room's analytics hold the collected amount, the series, the breakdown and created_at now, with other rooms' analytics unchanged |
| InvestmentRoutes.UpsertStop | Investa-Backend/app/routes/investments.py:182-193 | the stop-vote upsert grows the collection only for a first vote, leaves stop votes under other keys as they were, and stores the caller's stop vote with voted_at now |
| InvestmentRoutes.StartExecution | Investa-Backend/app/routes/investments.py:93-108 | the execution record is appended and the room starts investing |
| InvestmentRoutes.StoreAnalytics | Investa-Backend/app/routes/investments.py:136 | the analytics collection is the upsert's result and keeps the invariant |
| InvestmentRoutes.UpsertStopCount | Investa-Backend/app/routes/investments.py:182-193 | the stop-vote upsert keeps one vote per key, the caller's vote is stored, and the recommendation's count rises by one for a first vote and by nothing for a repeated one |
| InvestmentRoutes.RepeatedStopVoteNotCounted | Investa-Backend/app/routes/investments.py:182-188 | stopping twice counts the caller once |
| InvestmentRoutes.StopPayoutPlan | Investa-Backend/app/routes/investments.py:198-207 | nothing is paid without analytics or with an empty series; a payout is the asset's profit, 0 when the last value does not exceed the invested amount |
| InvestmentRoutes.StopInvestment | Investa-Backend/app/routes/investments.py:162-229 | 404 without a caller and 400 without ids, before any write; otherwise the caller's stop vote is upserted, then a non-ObjectId room id gives 500; the stop is reached exactly when the room has members and its votes reach the threshold; 500 exactly when a reached stop meets a null allocation; the reply holds reached, votes and threshold; the wallets become the stop payout, which leaves them unchanged because every stake is 0 |
| InvestmentRoutes.RecordStopVote | Investa-Backend/app/routes/investments.py:184-188 | the stop votes are the upsert's result and keep one vote per key |
| InvestmentRoutes.PayStop | Investa-Backend/app/routes/investments.py:209-219 | the wallets are the stop payout over the room's active members, and under the invariant that payout changes nothing |
| InvestmentRoutes.ActiveStakesZero | Investa-Backend/app/routes/investments.py:210-213 | every active member's contribution_amount, the stake of a stop, is 0 |
| InvestmentRoutes.StopVoters | Investa-Backend/app/routes/investments.py:252-258 | every voter counted has a stop vote in the selection (the same count as InvestmentService.Voters, over stop votes) |
| InvestmentRoutes.StopVotesAggregate | Investa-Backend/app/routes/investments.py:232-263 | 400 without room_id and 500 for an id that is not an ObjectId; the threshold is 0 for a room without members; the votes are the recommendation's stop votes, or, without one, the number of distinct users with a stop vote in the room |
| InvestmentRoutes.StopVotesAreVoters | Investa-Backend/app/routes/investments.py:184-193 | with one stop vote per key, a recommendation's stop votes are one per voter |
| InvestmentRoutes.StopVotersMonotone | Investa-Backend/app/routes/investments.py:249-258 | a narrower selection of stop votes has no more voters |
| InvestmentRoutes.StopAggregateBoundedByVoters | Investa-Backend/app/routes/investments.py:249-258 | the count for one recommendation never exceeds the room's distinct voters, and both report the same threshold |
| InvestmentRoutes.CloseWrite | Investa-Backend/app/routes/investments.py:400-414 | the room is closed, without an execution, with closed_at and updated_at now and its final invested amount, portfolio value and profit; every other room is untouched |
| InvestmentRoutes.EndInvestment | Investa-Backend/app/routes/investments.py:266-432 | corrected (Findings row 3, where as written nobody is paid): refused exactly when a guard fails, with that guard's code (404, 400, 500, 404, 404, 403, 404, 500, 400, in the handler's order) and nothing written; otherwise the reply holds the invested amount, the profit, the active member count and the distribution; the ledger is the payout of the distribution to the members by their database ids; the room is closed; the room's analytics document is gone |
| InvestmentRoutes.PlanDistribution | Investa-Backend/app/routes/investments.py:317-347 | the total is the sum of the completed amounts and, when it is positive, the distribution is the proportional split over the active members |
| InvestmentRoutes.Settle | Investa-Backend/app/routes/investments.py:349-417 | the ledger is the payout, the room is closed with the final value re-read from the analytics document, and that document is deleted |
| InvestmentRoutes.CloseRoom | Investa-Backend/app/routes/investments.py:400-414 | the rooms are the closing write's result and keep the invariant |
| InvestmentRoutes.DropAnalytics | Investa-Backend/app/routes/investments.py:416-417 | the room's analytics document is removed and no other is found for the room |
| InvestmentRoutes.AnalyticsRemoved | Investa-Backend/app/routes/investments.py:416-417 | with one document per room, deleting the room's document leaves none for it and leaves every other room's document in place |
| InvestmentRoutes.RemoveUnmatched | Investa-Backend/app/routes/investments.py:417 | removing a document the filter does not match keeps find_one's answer |
| InvestmentRoutes.EndTwiceRefused | Investa-Backend/app/routes/investments.py:302-305 | an ended investment cannot be ended again: the second call finds no analytics document and is refused with 404, so nothing is paid twice |
| InvestmentRoutes.EndRefusal | Investa-Backend/app/routes/investments.py:266-333 | every refusal is 400, 403, 404 or 500; the end goes ahead only for a known caller who created an existing room with an analytics document, a non-empty series and a positive contribution total; 403 exactly for a known caller who did not create the existing room |
| InvestmentRoutes.ActiveMembersDistinct | Investa-Backend/app/routes/investments.py:312 | the active members of one room have distinct user ids |
| InvestmentRoutes.EndSplitsProfit | Investa-Backend/app/routes/investments.py:307-347 | when every completed contributor is an active member and every amount is positive, the shares of an end add up to exactly the profit |
| InvestmentRoutes.EndPaysOutProfit | Investa-Backend/app/routes/investments.py:307-394 | under the same conditions, and when every paid member has a wallet, an end raises the total balance held in wallets by exactly the profit |
| RoomService.GenerateRoomCode | Investa-Backend/app/services/room_service.py:29-31 | a code is "ROOM-" followed by the six drawn characters of A-Z0-9 |
| RoomService.RoomCodeIsNotObjectId | Investa-Backend/app/services/room_service.py:29-31 | a room code is never a valid ObjectId, so join_room never mistakes a code for an id |
| RoomService.GetRoomByCode | Investa-Backend/app/services/room_service.py:103-123 | the room found is stored and has the code; there is none exactly when no room has it |
| RoomService.GetPublicRooms | Investa-Backend/app/services/room_service.py:159-186 | every room listed is stored, public and open; newest first; at most abs(limit) of them when limit is not 0; a negative skip lists nothing; with no paging, exactly the public open rooms |
| RoomService.GetRoomMembers | Investa-Backend/app/services/room_service.py:367-398 | exactly the active member records stored under this room_id string |
| RoomService.GetUserRooms | Investa-Backend/app/services/room_service.py:125-157 | [] when one of the user's active records holds a room_id that is not an ObjectId; otherwise exactly the stored rooms that one of the user's active records points to |
| RoomService.MemberAddedKeepsInv | Investa-Backend/app/services/room_service.py:274-291 | appending an active record with a new key and raising the room's count by one keeps current_members equal to the records not "left", and keeps keys unique |
| RoomService.AddRoomMember | Investa-Backend/app/services/room_service.py:244-299 | succeeds exactly when the room exists, has room (current < max) and holds no record of any status for the user; then an active record with contribution 0 is appended and current_members rises by exactly one; otherwise nothing changes |
| RoomService.MemberLeftKeepsInv | Investa-Backend/app/services/room_service.py:318-329 | setting a record that is not yet "left" to "left" and lowering the room's count by one keeps the invariant |
| RoomService.RemoveRoomMember | Investa-Backend/app/services/room_service.py:301-337 | refused for the room's creator; otherwise succeeds exactly when the user's first record for the room exists and is not "left"; that record becomes "left" and current_members drops by one; a refusal changes nothing |
| RoomService.RoomDeletedKeepsIds | Investa-Backend/app/services/room_service.py:235 | deleting a room keeps room ids unique and issued, and no remaining room has its id |
| RoomService.FilteredMembersWellFormed | Investa-Backend/app/services/room_service.py:236 | deleting member records keeps the remaining ones well formed and their keys unique |
| RoomService.RoomDeletedKeepsCounts | Investa-Backend/app/services/room_service.py:235-236 | deleting a room and the records stored under its id keeps every other room's current_members right |
| RoomService.DeleteRoom | Investa-Backend/app/services/room_service.py:217-242 | succeeds exactly for the creator of an existing room; the room is removed and so is every member record stored under exactly this room_id, and no room with the id remains; otherwise nothing changes |
| RoomService.AddCollected | Investa-Backend/app/services/room_service.py:411-432 | collected_amount grows by the amount; the room is ready exactly when it was ready already, or was open with a positive goal that is now met; no other status change happens; nothing but collected_amount, status and updated_at changes |
| RoomService.UpdateRoomCollectedAmount | Investa-Backend/app/services/room_service.py:400-438 | succeeds exactly when the id names a room, which is rewritten as AddCollected says |
| RoomService.RoomInsertedKeepsInv | Investa-Backend/app/services/room_service.py:48-67 | inserting a room with a fresh canonical id and no members keeps the invariant, and the new id finds the new room, which has no member records yet |
| RoomService.BumpKeepsIndex | Investa-Backend/app/services/room_service.py:288-291 | the $inc on current_members keeps the number of rooms and where each id is found |
| RoomService.CreateRoom | Investa-Backend/app/services/room_service.py:33-79 | one room is appended with the given fields, the code, nothing collected, status open, no execution and no final values; the creator is then added as an active first member, so current_members is 1 (0 when max_members < 1) |
| RoomService.ApplyPatch | Investa-Backend/app/services/room_service.py:199-206 | corrected update: every supplied field is set, an empty patch changes only updated_at, and nothing outside the seven fields and updated_at changes |
| RoomService.UpdateRoom | Investa-Backend/app/services/room_service.py:188-215 | an unknown id writes nothing and returns None; otherwise the room is the patched one and is returned |
| RoomService.UpdateDocAsWritten | Investa-Backend/app/routes/rooms.py:251-262 | as written, a supplied goal_amount (a Decimal) makes the write fail; otherwise the $set holds all seven keys, the absent ones as null |
| RoomService.UpdateRoomAsWrittenFails | Investa-Backend/app/routes/rooms.py:251-268 | as written, every update request gets 500, and one without goal_amount leaves a room that RoomResponse can no longer read |
| RoomService.UpdateRoomCorrectedStoresPatch | Investa-Backend/app/services/room_service.py:199-209 | corrected: an update that supplies every field leaves a readable room that holds them, with its id, member count and status unchanged |
| ContributionService.WithContributionStatus | Investa-Backend/app/services/contribution_service.py:250-255 | sets the status; sets failure_reason only for a non-empty reason; sets completed_at to now only for "completed"; nothing else changes |
| ContributionService.UpdateContributionStatus | Investa-Backend/app/services/contribution_service.py:236-266 | only the first contribution with the id is rewritten; true exactly when it exists and the write changed it |
| ContributionService.GetUserContributions | Investa-Backend/app/services/contribution_service.py:176-207 | every contribution listed is stored and is the user's, of the status when a non-empty one is given; newest first; at most abs(limit); a negative skip lists nothing; without skip and limit, exactly the user's contributions of that status are listed |
| ContributionService.GetRoomContributions | Investa-Backend/app/services/contribution_service.py:209-234 | every contribution listed is stored under the room_id, whatever its status; newest first; at most abs(limit); a negative skip lists nothing; with no paging, exactly the room's contributions |
| ContributionService.ContributionTx | Investa-Backend/app/services/contribution_service.py:118-128 | the logged transaction is a "contribution" of the amount, from the owner's wallet, for the room with no room name, under the contribution's transaction_id as reference |
| ContributionService.ChargeWallet | Investa-Backend/app/services/contribution_service.py:109-131 | the wallet is debited by the amount and a completed "contribution" transaction is logged |
| ContributionService.CreditRoom | Investa-Backend/app/services/contribution_service.py:133-148 | succeeds exactly when the room exists; then the room takes the amount and the contribution completes, with the wallets untouched; otherwise the wallet is re-credited as a deposit and rooms and contributions are untouched |
| ContributionService.ProcessContribution | Investa-Backend/app/services/contribution_service.py:85-152 | nothing changes unless the contribution and its owner's wallet exist and the balance covers the amount; otherwise a completed transaction is logged and the wallet debited, then either the room takes the amount and the contribution completes (true), or, for a missing room, the wallet is re-credited as a deposit (false) |
| ContributionService.FinishContribution | Investa-Backend/app/services/contribution_service.py:72-77 | on success the stored contribution is returned; otherwise it is marked failed with reason "Insufficient balance", whatever the cause, and None is returned |
| ContributionService.FreshContribution | Investa-Backend/app/services/contribution_service.py:66-73 | a contribution inserted under a fresh id is the one later lookups by that id find, and the completion write lands on it |
| ContributionService.CreateContribution | Investa-Backend/app/services/contribution_service.py:28-83 | nothing is written unless the room exists and is open and the user's wallet covers the amount; then the contribution is stored completed and returned, the wallet is debited, the transaction logged as completed and the amount added to the room |
| WithdrawalService.AmountFieldAsWritten | Investa-Backend/app/services/withdrawal_service.py:51-53 | as written, the amount reaches insert_one as a Decimal, which the default BSON codec cannot encode |
| WithdrawalService.AmountFieldCorrected | Investa-Backend/app/services/withdrawal_service.py:51-62 | corrected: the amount is stored as a float, which encodes |
| WithdrawalService.NewWithdrawal | Investa-Backend/app/services/withdrawal_service.py:51-60 | a new withdrawal is pending, with no paystack reference and no processed_at, for the user, amount and reference requested |
| WithdrawalService.CreateOutcome | Investa-Backend/app/services/withdrawal_service.py:36-71 | a withdrawal is created exactly when the wallet exists, covers the amount, the amount lies in [100, 1,000,000] and the insert can encode the document |
| WithdrawalService.CreateWithdrawalAsWrittenNeverCreates | Investa-Backend/app/services/withdrawal_service.py:51-71 | as written, create_withdrawal returns None for every input |
| WithdrawalService.CreateWithdrawalAsWrittenRejectsValidRequest | Investa-Backend/app/services/withdrawal_service.py:36-71 | a request every guard accepts (a 200.00 withdrawal from a wallet holding 500.00) fails as written and succeeds with the amount stored as a float |
| WithdrawalService.CreateWithdrawal | Investa-Backend/app/services/withdrawal_service.py:26-71 | corrected: the wallet is only read; the id is a canonical ObjectId that the store finds again; the request is stored pending and returned exactly when every guard passes; otherwise nothing is written |
| WithdrawalService.WithWithdrawalStatus | Investa-Backend/app/services/withdrawal_service.py:206-213 | sets the status; sets paystack_reference only for a non-empty one and processed_at only when one is given; nothing else changes |
| WithdrawalService.UpdateWithdrawalStatus | Investa-Backend/app/services/withdrawal_service.py:191-224 | the id is parsed as an ObjectId (case-insensitive hex, anything else matches nothing); only the first withdrawal with that id is rewritten; true exactly when it exists and the write changed it |
| WithdrawalService.StatusWritesCompose | Investa-Backend/app/services/withdrawal_service.py:206-213 | two status writes in a row leave the second status, the same paystack rule and the last processed_at given |
| WithdrawalService.WithdrawalTx | Investa-Backend/app/services/withdrawal_service.py:114-124 | the recorded transaction is a "withdrawal" of the amount from the owner's wallet, under the withdrawal's own reference, carrying the transfer reference |
| WithdrawalService.ProcessWithdrawal | Investa-Backend/app/services/withdrawal_service.py:73-134 | the withdrawal is looked up as an ObjectId, case-insensitively; an unknown or non-ObjectId id changes nothing; the result is true exactly when the owner's wallet exists and covers the amount, whatever the withdrawal's status; a failure leaves it failed (after processing), with wallets and log untouched; a success debits the wallet, records a pending withdrawal transaction and leaves it completed at now |
| WithdrawalService.CancelWithdrawal | Investa-Backend/app/services/withdrawal_service.py:226-256 | succeeds exactly for the owner of a pending withdrawal found by ObjectId (case-insensitive), which becomes cancelled with nothing else changed; otherwise nothing changes |
| WithdrawalService.CancelIgnoresCase | Investa-Backend/app/services/withdrawal_service.py:226-256 | cancel_withdrawal reaches the same withdrawal under any case spelling of a valid ObjectId, and none for a string that is not one |
| WithdrawalService.GetUserWithdrawals | Investa-Backend/app/services/withdrawal_service.py:158-189 | every withdrawal listed is stored and is the user's, of the status when a non-empty one is given; newest first; at most abs(limit); a negative skip lists nothing; with no paging, exactly the matching withdrawals |
| WalletRoutes.EnsureWallet | Investa-Backend/app/routes/wallet.py:35-42 | after the lookup-or-create step the user has a wallet; at most one document is added, at the end; nothing is added when the user already had one |
| WalletRoutes.EnsureWalletOnce | Investa-Backend/app/routes/wallet.py:116-122 | a second lookup-or-create for the same user adds nothing, and other users' wallet lookups are unaffected |
| WalletRoutes.GetWalletBalance | Investa-Backend/app/routes/wallet.py:22-51 | 404 with no wallet written for an unknown caller; otherwise 200 with the caller's stored wallet, or a new empty one created for them |
| WalletRoutes.TransactionsPage | Investa-Backend/app/routes/wallet.py:55-90 | 404 exactly when the caller is unknown; otherwise limit defaults to 50 and skip to 0, count is the number listed, every item is the caller's transaction, and at most 50 are listed without a limit argument |
| WalletRoutes.WithdrawalsPage | Investa-Backend/app/routes/wallet.py:221-255 | 404 exactly when the caller is unknown; otherwise limit defaults to 50 and skip to 0, count is the number listed, every item is the caller's withdrawal, and at most 50 are listed without a limit argument |
| WalletRoutes.TopupRefusal | Investa-Backend/app/routes/wallet.py:96-113 | no refusal exactly for a known caller with an amount from 100 to 1,000,000; 400 exactly for a missing or out-of-range amount from an authenticated caller; 404 for no caller or an unknown one with a valid amount, so the amount is checked before the user |
| WalletRoutes.UserWallet | Investa-Backend/app/routes/wallet.py:116-122 | the wallet the top-up credits: the caller's stored wallet, or the new empty one |
| WalletRoutes.TopupEntry | Investa-Backend/app/routes/wallet.py:124-134 | the pending deposit the top-up records: the caller's wallet, the amount, and a reference of "TOP-" plus 8 upper-case hex digits |
| WalletRoutes.TopupWallet | Investa-Backend/app/routes/wallet.py:94-157 | on a refusal nothing is written; otherwise 201, the deposit is credited to the caller's (possibly new) wallet, the deposit transaction is stored as completed and returned, and the returned wallet is the re-read one |
| WalletRoutes.TopupCredits | Investa-Backend/app/routes/wallet.py:116-146 | with distinct wallet ids, a top-up raises the caller's balance and total_deposited by the amount, starting from 0 for a wallet created on the way |
| WalletRoutes.TopupWriteAt | Investa-Backend/app/routes/wallet.py:116-146 | the top-up rewrites the caller's wallet at the position where get_wallet_by_user_id finds it, and the written wallet still belongs to the caller |
| WalletRoutes.TopupRaisesTotal | Investa-Backend/app/routes/wallet.py:116-146 | a top-up raises the total balance held over all wallets by exactly the amount |
| WalletRoutes.TopupKeepsOthers | Investa-Backend/app/routes/wallet.py:116-146 | a top-up leaves every other user's wallet as it was |
| WalletRoutes.EnsureWalletSum | Investa-Backend/app/routes/wallet.py:116-122 | creating a wallet on demand leaves the total balance over all wallets unchanged |
| WalletRoutes.WithdrawRefusal | Investa-Backend/app/routes/wallet.py:163-191 | the refusals in the route's order: 404 for no caller, 400 for a missing or out-of-range amount, 404 for an unknown user or a user with no wallet, 400 when the balance is below the amount; none exactly when all checks pass |
| WalletRoutes.WithdrawalRequest | Investa-Backend/app/routes/wallet.py:172-203 | the WithdrawalCreate built for the caller: the amount, a reference of "WTH-" plus 8 upper-case hex digits, and the reason, "" when none is given |
| WalletRoutes.WithdrawGuardsAgree | Investa-Backend/app/routes/wallet.py:175-191 | the route's own checks pass exactly when the service's can-withdraw condition holds for the caller's wallet |
| WalletRoutes.RequestWithdrawal | Investa-Backend/app/routes/wallet.py:161-217 | corrected (Findings row 1, where as written every guard-passing request answers 500): on a refusal nothing is stored; otherwise 200 with the new pending withdrawal appended, and the wallet is not debited |
| ContributionRoutes.ContributeRefusal | Investa-Backend/app/routes/contributions.py:32-56 | no refusal exactly for a known caller with a room_id and an amount from 100 to 1,000,000; 400 exactly for an authenticated caller with a missing field or an out-of-range amount; 404 for no caller, or for an unknown one whose request is otherwise valid |
| ContributionRoutes.ContributionRequest | Investa-Backend/app/routes/contributions.py:59-70 | the ContributionCreate built: the caller's database id, the room and amount, payment method "wallet", and a transaction id of "TXN-" plus 8 upper-case hex digits |
| ContributionRoutes.CreateContributionRoute | Investa-Backend/app/routes/contributions.py:18-85 | on a refusal nothing is written; 500 with nothing written when the room is not open or the wallet does not cover the amount; otherwise 201 with the completed contribution appended, holding the room, the caller's database id, the amount, the TXN- transaction id and payment method "wallet" of the request, the caller's wallet debited, the contribution transaction logged as completed and the room's collected amount raised |
| ContributionRoutes.ContributionsPage | Investa-Backend/app/routes/contributions.py:90-144 | 404 exactly when the caller is unknown; limit defaults to 50 and skip to 0; count is the number listed; with a non-empty room_id every item is a contribution of that room, by anyone; otherwise every item is the caller's own; at most 50 without a limit argument |
| ContributionRoutes.RoomPageIgnoresStatus | Investa-Backend/app/routes/contributions.py:123-125 | with a room_id, the status argument makes no difference to the page |
| ContributionRoutes.EmptyRoomIdListsOwn | Investa-Backend/app/routes/contributions.py:119-130 | an empty room_id lists the same page as no room_id: the caller's own contributions |
| AuthMiddleware.SplitSpace | Investa-Backend/app/middleware/auth_middleware.py:27 | str.split(' ') yields at least one field, no field holds a space, and there are two or more fields exactly when the text has a space |
| AuthMiddleware.JoinSplit | Investa-Backend/app/middleware/auth_middleware.py:27 | joining the split fields with single spaces gives back the header |
| AuthMiddleware.SplitJoin | Investa-Backend/app/middleware/auth_middleware.py:27 | fields without spaces, joined with single spaces and split again, come back unchanged |
| AuthMiddleware.SplitWord | Investa-Backend/app/middleware/auth_middleware.py:27 | a space-free word, a space and more text split into the word followed by the fields of the text |
| AuthMiddleware.FirstWord | Investa-Backend/app/middleware/auth_middleware.py:27 | the text before the first space: it holds no space, is a prefix of the text, and is followed by a space when shorter than the text |
| AuthMiddleware.SplitHead | Investa-Backend/app/middleware/auth_middleware.py:27 | the first field of the split is the first word |
| AuthMiddleware.TokenIsFirstWord | Investa-Backend/app/middleware/auth_middleware.py:24-27 | for a header starting with "Bearer ", the token is the text after "Bearer " up to the next space, and holds no space |
| AuthMiddleware.EmptyTokens | Investa-Backend/app/middleware/auth_middleware.py:27-29 | for a header starting with "Bearer ", the token is empty exactly when nothing or a second space follows the prefix, so "Bearer " and "Bearer  <x>" are refused |
| AuthMiddleware.RequireAuth | Investa-Backend/app/middleware/auth_middleware.py:13-48 | every refusal is 401; the handler runs exactly when the header is non-empty, starts with "Bearer ", carries a non-empty token and the verifier accepts it; the caller id is the verifier's uid |
| AuthMiddleware.OptionalAuth | Investa-Backend/app/middleware/auth_middleware.py:58-80 | optional_auth never refuses; it sets a caller id exactly when the header is non-empty, starts with "Bearer ", carries a non-empty token and the verifier accepts it, and that id is the verifier's uid; so it sets exactly the id require_auth would admit, and none where require_auth refuses |
| AuthMiddleware.VerifiedTokenIsOneWord | Investa-Backend/app/middleware/auth_middleware.py:27-36 | an admitted request's token is a non-empty space-free word, and the verifier maps it to the admitted uid |
| RoomRoutes.RoomsPage | Investa-Backend/app/routes/rooms.py:19-68 | 404 without an identity, or for type "user" with an unknown caller; 400 exactly for an identified caller with a type other than "user" and "public"; limit defaults to 20 and skip to 0; count is the number listed; "public" lists stored public, open rooms; "user" lists rooms the caller is an active member of |
| RoomRoutes.PublicListingNeedsNoAccount | Investa-Backend/app/routes/rooms.py:43-45 | the public listing does not depend on the user table: an identified caller without an account sees the same page |
| RoomRoutes.UserListingIgnoresPaging | Investa-Backend/app/routes/rooms.py:46-52 | the caller's own rooms are listed in full; limit and skip change nothing but the echoed values |
| RoomRoutes.CreateRefusal | Investa-Backend/app/routes/rooms.py:88-111 | no refusal exactly for a known caller whose body has all six required fields; 400 exactly for an identified caller with no body or a missing field; every other refusal is 404 |
| RoomRoutes.RoomRequest | Investa-Backend/app/routes/rooms.py:114-124 | the RoomCreate carries the body's six fields, the caller as creator, and visibility "public" unless the body gives one |
| RoomRoutes.CreateRoomRoute | Investa-Backend/app/routes/rooms.py:73-139 | on a refusal nothing is written; otherwise 201 with a new open room appended under a freshly issued id, holding every field of the body (visibility defaulting to "public"), the caller as creator, nothing collected, no execution and a room code ending in the six drawn characters; the caller's active creator member record is appended and current_members is 1, or neither happens when max_members < 1 |
| RoomRoutes.GetRoomRoute | Investa-Backend/app/routes/rooms.py:144-201 | 404 exactly when no room is found; otherwise the stored room, exactly the active member records of that room, a creator flag that holds exactly when the caller is a known user who created it, and the stored has_execution flag |
| RoomRoutes.ManageRefusal | Investa-Backend/app/routes/rooms.py:222-244 | update and delete proceed exactly for a known caller who created an existing room; 403 exactly for a known caller who did not create it; every other refusal is 404 |
| RoomRoutes.LeaveRefusal | Investa-Backend/app/routes/rooms.py:431-454 | leaving proceeds exactly for a known caller who did not create an existing room; 400 exactly for its creator; every other refusal is 404 |
| RoomRoutes.CreatorFlagIsManageRight | Investa-Backend/app/routes/rooms.py:144-201 | get_room's creator flag holds exactly when update and delete would be allowed, and exactly when leave_room would refuse with 400 |
| RoomRoutes.UpdateRoomRoute | Investa-Backend/app/routes/rooms.py:206-274 | corrected (Findings row 2, where as written every update answers 500): the shared refusals and a missing body leave the rooms unchanged; otherwise 200, and the room is the stored room with the supplied fields applied and updated_at set |
| RoomRoutes.RefundWrite | Investa-Backend/app/routes/rooms.py:331-338 | the refund credit changes only the balance and timestamp of the first wallet with that id, raising its balance by the amount, so what it has committed falls by the amount; with no such wallet nothing changes |
| RoomRoutes.RefundEffect | Investa-Backend/app/routes/rooms.py:318-354 | a refund changes only balances and timestamps; it raises the total balance by the contributed amount exactly when the user contributed a positive total and has a wallet, and then appends one completed "refund" transaction of that amount with the reference and room; otherwise nothing changes |
| RoomRoutes.RefundMember | Investa-Backend/app/routes/rooms.py:318-354 | one member's refund writes exactly the Refund ledger, and reports refunded exactly when a refund is due (a positive contributed total and a wallet) |
| RoomRoutes.SameOwnersSameRefunds | Investa-Backend/app/routes/rooms.py:328-331 | whether a user is refunded depends on the wallets only through their owners |
| RoomRoutes.OwnersKeepRefundCount | Investa-Backend/app/routes/rooms.py:318-354 | wallets with the same owners refund the same number of members, so an earlier refund does not change how many later iterations refund |
| RoomRoutes.OwnersKeepRefunded | Investa-Backend/app/routes/rooms.py:318-354 | wallets with the same owners refund exactly the same members, in the same order, so an earlier refund does not change who a later iteration refunds |
| RoomRoutes.DeleteRefundsKeepAccounts | Investa-Backend/app/routes/rooms.py:318-354 | delete_room's refund loop changes only balances and timestamps of wallets |
| RoomRoutes.DeleteRefundsLog | Investa-Backend/app/routes/rooms.py:318-354 | the loop keeps the existing transaction log and adds one entry per refunded member |
| RoomRoutes.DeleteRefundsAreRefunds | Investa-Backend/app/routes/rooms.py:318-354 | every transaction the loop adds is a completed "refund" |
| RoomRoutes.DeleteRefundsTotal | Investa-Backend/app/routes/rooms.py:318-354 | the loop raises the total balance by exactly what the refunded members contributed |
| RoomRoutes.RefundMembers | Investa-Backend/app/routes/rooms.py:315-355 | the loop's effect is the refund of each active member in turn, and refunded_count is the number of refunded members |
| RoomRoutes.DeleteRoomRoute | Investa-Backend/app/routes/rooms.py:279-370 | on a refusal nothing is written; otherwise 200, every active member of the room is refunded, refunded_count is the number refunded, the room is removed, and so are the member records stored under its id |
| RoomRoutes.ResolveRoomId | Investa-Backend/app/routes/rooms.py:396-405 | a valid ObjectId is used as given; anything else resolves exactly when some room has it as its code, and then to that room's id |
| RoomRoutes.JoinByIdAcceptsCodes | Investa-Backend/app/routes/rooms.py:396-405 | a room code sent to join_room reaches the same room that join_room_by_code finds |
| RoomRoutes.JoinRoomRoute | Investa-Backend/app/routes/rooms.py:375-421 | 404 with nothing written for an unknown caller or an unresolved id; otherwise the caller joins exactly when add_room_member's conditions hold (200, an active non-creator member appended, the count raised), and 400 with nothing written otherwise |
| RoomRoutes.JoinByCodeRefusal | Investa-Backend/app/routes/rooms.py:553-583 | no refusal exactly for a known caller whose room_code matches a room; 400 exactly for an identified caller with no room_code; every other refusal is 404 |
| RoomRoutes.JoinByCodeRoute | Investa-Backend/app/routes/rooms.py:548-600 | on a refusal nothing is written; otherwise the room with that code is returned, and the caller joins it exactly when add_room_member's conditions hold (200, an active non-creator member appended, the room's current_members raised by one); 400 with nothing written otherwise |
| RoomRoutes.LeaveStatus | Investa-Backend/app/routes/rooms.py:502-516 | the intended status after the refund: 200 exactly when the member record was set to "left", 400 otherwise |
| RoomRoutes.LeaveAsWrittenFailsAfterRefund | Investa-Backend/app/routes/rooms.py:502-518 | as written, a refunded member who leaves is answered 500 even though the credit and refund transaction were written; the intended answer is 200 |
| RoomRoutes.LeaveAgainRefundsAgain | Investa-Backend/app/routes/rooms.py:462-500 | leaving marks nothing as refunded, so a second refund of the same member credits the contributed amount again, twice in total |
| RoomRoutes.LeftMemberCannotLeave | Investa-Backend/app/services/room_service.py:301-337 | once a member record is set to "left", it cannot be removed again |
| RoomRoutes.LeaveRoomRoute | Investa-Backend/app/routes/rooms.py:426-518 | corrected status (Findings row 4, where as written a refunded removal answers 500 after the same writes): on a refusal nothing is written; otherwise the caller is refunded what they contributed when it is positive and they have a wallet, and then the member record is set to "left" and the count lowered (200), or nothing more is written (400); the refund stays either way |

CanAdd, CanRemove and DeleteRefunds (RoomService.CanAdd, RoomService.CanRemove, RoomRoutes.DeleteRefunds) are building blocks without a contract of their own: add_room_member's guards (Investa-Backend/app/services/room_service.py:244-299), remove_room_member's outcome (Investa-Backend/app/services/room_service.py:301-337) and delete_room's refund loop as a function (Investa-Backend/app/routes/rooms.py:315-355). Their properties are stated by the rows for RoomService.AddRoomMember, RoomService.RemoveRoomMember, RoomRoutes.RefundMembers and the DeleteRefunds lemmas.

## Left out

- Payment gateway: the Paystack service is not part of this model. A top-up is credited at once, as the route does.
- Analytics series generation: the random price series an execution stores is a parameter of `InvestmentRoutes.ExecuteInvestment`.
- Decimal and float conversions and `round(…, 2)`: money is an exact `real`, so rounding of stored amounts is not modelled.
- Concurrency: each handler is one sequential step. Interleaved requests and the lack of transactions across collections are not modelled.
- User accounts: creating, updating and deactivating users are not modelled. The users collection is a fixed map from Firebase uid to database id.
- Firebase verification: `verify_token` is an opaque function parameter, and `get_current_user` only returns the stored token data.
- Exceptions: an exception inside `require_auth` answers 500. So does a body field that fails `float()` or `int()` in a handler. Neither path is modelled, and parsed arguments arrive as `Option` values.
- Storage failures: a failing `insert_one` other than the two in the findings is not modelled. Nor is a `create_transaction` that returns None, which answers 500.
- Other read-only endpoints, which only read a document and wrap it: `get_room_members` (route), `get_contribution`, the per-room and per-user statistics, and the by-id getters for members, wallets, transactions and withdrawals. `get_room_analytics` is also left out.
- Timestamps: they are opaque integers supplied by the caller, so ordering by `created_at` uses those values.
- Response bodies: JSON serialisation and log messages are not modelled. A handler returns its status code and the documents it would serialise.

## Findings

| source | as written | input that shows it | evidently intended | confidence | as-written member | corrected member |
|---|---|---|---|---|---|---|
| Investa-Backend/app/services/withdrawal_service.py:51-71 | the withdrawal document stores `amount` as a `Decimal`, which the default BSON codec cannot encode, so `insert_one` raises and `create_withdrawal` returns None | a 200.00 withdrawal from a wallet holding 500.00 | the request is stored as a pending withdrawal with the amount as a float | not executed | WithdrawalService.CreateWithdrawalAsWrittenRejectsValidRequest | WithdrawalService.CreateWithdrawal |
| Investa-Backend/app/routes/rooms.py:251-268 | `update_room` passes all seven fields to `RoomUpdate`. `exclude_unset` keeps the ones passed as None, so absent fields are written as null, and a supplied `goal_amount` is a `Decimal` that cannot be encoded. Every request is answered 500 | a creator's update that sets only `name` | only the supplied fields are set, and the updated room is returned with 200 | not executed | RoomService.UpdateRoomAsWrittenFails | RoomService.UpdateRoomCorrectedStoresPatch |
| Investa-Backend/app/routes/investments.py:357-363 | `end_investment` looks the recipient up by Firebase uid, using the member's database id, so no user is found and no wallet is credited | an end where every member's database id differs from every Firebase uid | each member's wallet is credited with their profit share, as a return | not executed | Distribution.EndPayoutAsWrittenPaysNobody | Distribution.EndPayoutCreditsShares |
| Investa-Backend/app/routes/rooms.py:502-518 | after a refund, the success message calls `formatMoney`, which is not defined, so the NameError is answered with 500 after the credit was written | a member with a completed 500.00 contribution and a wallet leaves the room | 200 with the refund reported | not executed | RoomRoutes.LeaveAsWrittenFailsAfterRefund | RoomRoutes.LeaveStatus |
