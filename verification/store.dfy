/**
 * The MongoDB collections the backend works on, one document datatype per
 * collection, and the database object that holds them in natural order.
 *
 * Field names follow the stored documents; identifiers are the string form
 * of the document's ObjectId. Users are reduced to the map from Firebase uid
 * to database id, which is all the modelled handlers read from them.
 */
module Store {
  import opened Base
  import opened Seqs

  datatype RoomStatus = Open | Ready | Investing | Closed
  datatype MemberStatus = Active | Left | Removed
  datatype ContributionStatus = Pending | Completed | Failed
  datatype WithdrawalStatus =
    WithdrawalPending | WithdrawalProcessing | WithdrawalCompleted | WithdrawalFailed | WithdrawalCancelled
  datatype TxStatus = TxPending | TxCompleted

  /** A document of the `rooms` collection. */
  datatype Room = Room(
    id: string,
    name: string,
    description: string,
    goalAmount: real,
    maxMembers: int,
    riskLevel: string,
    investmentType: string,
    visibility: string,
    collectedAmount: real,
    currentMembers: int,
    status: RoomStatus,
    roomCode: string,
    creatorId: string,
    createdAt: Time,
    updatedAt: Time,
    hasExecution: bool,
    closedAt: Option<Time>,
    finalInvestedAmount: Option<real>,
    finalPortfolioValue: Option<real>,
    finalProfit: Option<real>)

  /** A document of `room_members`; `roomId` is the string the caller passed. */
  datatype Member = Member(
    id: string,
    roomId: string,
    userId: string,
    contributionAmount: real,
    isCreator: bool,
    joinedAt: Time,
    status: MemberStatus)

  /** A document of `investment_votes`. */
  datatype Vote = Vote(
    id: string,
    roomId: string,
    recommendationId: string,
    userId: string,
    vote: string,
    createdAt: Time,
    updatedAt: Time)

  /** A document of `investment_stop_votes`. */
  datatype StopVote = StopVote(
    id: string,
    roomId: string,
    recommendationId: string,
    userId: string,
    votedAt: Time)

  /** A document of `contributions`. */
  datatype Contribution = Contribution(
    id: string,
    roomId: string,
    userId: string,
    amount: real,
    status: ContributionStatus,
    transactionId: string,
    paymentMethod: string,
    failureReason: Option<string>,
    createdAt: Time,
    completedAt: Option<Time>)

  /** A document of `wallets`. */
  datatype Wallet = Wallet(
    id: string,
    userId: string,
    balance: real,
    totalDeposited: real,
    totalWithdrawn: real,
    totalReturns: real,
    currency: string,
    createdAt: Time,
    updatedAt: Time)

  /** A document of `wallet_transactions`. */
  datatype WalletTx = WalletTx(
    id: string,
    userId: string,
    walletId: string,
    txType: string,
    amount: real,
    status: TxStatus,
    reference: string,
    description: string,
    roomId: Option<string>,
    roomName: Option<string>,
    paystackReference: Option<string>,
    createdAt: Time,
    completedAt: Option<Time>)

  /** A document of `withdrawals`. */
  datatype Withdrawal = Withdrawal(
    id: string,
    userId: string,
    amount: real,
    status: WithdrawalStatus,
    reference: string,
    reason: Option<string>,
    paystackReference: Option<string>,
    processedAt: Option<Time>,
    createdAt: Time)

  /** One entry of an execute request's `allocations`: the `name` and
      `allocation` keys, each of which the client may leave out. */
  datatype Allocation = Allocation(name: Option<string>, allocation: Option<real>)

  /** One entry of an analytics document's `breakdown`. */
  datatype BreakdownItem = BreakdownItem(name: Option<string>, allocation: Option<real>, amount: real, color: string)

  /** A document of `investment_analytics`; `series` holds the `value` of each period. */
  datatype Analytics = Analytics(
    roomId: string,
    investedAmount: real,
    series: seq<real>,
    breakdown: seq<BreakdownItem>,
    createdAt: Time)

  /** A document of `investment_executions`. */
  datatype Execution = Execution(
    roomId: string,
    allocations: seq<Allocation>,
    investedAmount: real,
    startedAt: Time,
    createdBy: string)

  // ---- filters, as the services write them ----

  function RoomById(id: string): Room -> bool { (r: Room) => r.id == id }
  function RoomByCode(code: string): Room -> bool { (r: Room) => r.roomCode == code }
  function MemberById(id: string): Member -> bool { (m: Member) => m.id == id }
  function MemberOf(roomId: string, userId: string): Member -> bool
  {
    (m: Member) => m.roomId == roomId && m.userId == userId
  }
  function ActiveIn(roomId: string): Member -> bool
  {
    (m: Member) => m.roomId == roomId && m.status == Active
  }
  function ActiveOf(userId: string): Member -> bool
  {
    (m: Member) => m.userId == userId && m.status == Active
  }
  /** The member records that current_members counts for the room whose id is
      `oid`: every record not set to "left" whose room_id names that room. */
  function CountedIn(oid: string): Member -> bool
  {
    (m: Member) => Lower(m.roomId) == oid && m.status != Left
  }
  function WalletById(id: string): Wallet -> bool { (w: Wallet) => w.id == id }
  function WalletOf(userId: string): Wallet -> bool { (w: Wallet) => w.userId == userId }
  function TxById(id: string): WalletTx -> bool { (t: WalletTx) => t.id == id }
  function TxByReference(reference: string): WalletTx -> bool { (t: WalletTx) => t.reference == reference }
  function ContributionById(id: string): Contribution -> bool { (c: Contribution) => c.id == id }
  function CompletedIn(roomId: string): Contribution -> bool
  {
    (c: Contribution) => c.roomId == roomId && c.status == Completed
  }
  function CompletedOf(roomId: string, userId: string): Contribution -> bool
  {
    (c: Contribution) => c.roomId == roomId && c.userId == userId && c.status == Completed
  }
  function WithdrawalById(id: string): Withdrawal -> bool { (w: Withdrawal) => w.id == id }
  function AnalyticsOf(roomId: string): Analytics -> bool { (a: Analytics) => a.roomId == roomId }

  /** find_one({'_id': ObjectId(s)}) on rooms: an invalid id raises, which every
      caller turns into "no room"; a valid one matches case-insensitively. */
  function FindRoom(rooms: seq<Room>, s: string): (r: Option<Room>)
    ensures r.Some? ==> IsObjectId(s) && r.value in rooms && r.value.id == Lower(s)
    ensures r.None? && IsObjectId(s) ==> forall i :: 0 <= i < |rooms| ==> rooms[i].id != Lower(s)
  {
    if IsObjectId(s) then FindFirst(rooms, RoomById(Lower(s))) else None
  }

  /** The position of the room that update_one({'_id': ObjectId(s)}) writes. */
  function RoomIndex(rooms: seq<Room>, s: string): (r: Option<nat>)
    ensures r.Some? ==> IsObjectId(s) && r.value < |rooms| && rooms[r.value].id == Lower(s)
    ensures r.Some? ==> FindRoom(rooms, s) == Some(rooms[r.value])
    ensures r.None? ==> FindRoom(rooms, s).None?
  {
    if IsObjectId(s) then IndexOf(rooms, RoomById(Lower(s))) else None
  }

  /** find_one({'_id': ObjectId(s)}) on withdrawals: an invalid id raises, which
      every caller turns into False; a valid one matches case-insensitively. */
  function FindWithdrawal(ws: seq<Withdrawal>, s: string): (r: Option<Withdrawal>)
    ensures r.Some? ==> IsObjectId(s) && r.value in ws && r.value.id == Lower(s)
    ensures r.None? && IsObjectId(s) ==> forall i :: 0 <= i < |ws| ==> ws[i].id != Lower(s)
  {
    if IsObjectId(s) then FindFirst(ws, WithdrawalById(Lower(s))) else None
  }

  /** The position of the withdrawal that update_one({'_id': ObjectId(s)}) writes. */
  function WithdrawalIndex(ws: seq<Withdrawal>, s: string): (r: Option<nat>)
    ensures r.Some? ==> IsObjectId(s) && r.value < |ws| && ws[r.value].id == Lower(s)
    ensures r.Some? ==> FindWithdrawal(ws, s) == Some(ws[r.value])
    ensures r.None? ==> FindWithdrawal(ws, s).None?
  {
    if IsObjectId(s) then IndexOf(ws, WithdrawalById(Lower(s))) else None
  }

  function Sum(cs: seq<Contribution>): real
  {
    SumBy(cs, (c: Contribution) => c.amount)
  }

  // ---- the invariant every handler keeps ----

  /** Room ids are the canonical strings Mongo minted, never reused. */
  ghost predicate RoomIdsIssued(rooms: seq<Room>, issued: set<string>)
  {
    (forall i :: 0 <= i < |rooms| ==> IsCanonicalObjectId(rooms[i].id) && rooms[i].id in issued)
    && (forall i, j :: 0 <= i < j < |rooms| ==> rooms[i].id != rooms[j].id)
  }

  /** Every member record names, by a valid ObjectId string, a room that was
      issued; no shown code writes contribution_amount after its initial 0. */
  ghost predicate MembersWellFormed(members: seq<Member>, issued: set<string>)
  {
    forall k :: 0 <= k < |members| ==>
      IsObjectId(members[k].roomId) && Lower(members[k].roomId) in issued
      && members[k].contributionAmount == 0.0
  }

  /** Two member records for different (room_id, user_id) keys. */
  function KeysDiffer(): (Member, Member) -> bool
  {
    (a: Member, b: Member) => !(a.roomId == b.roomId && a.userId == b.userId)
  }

  /** add_room_member refuses a second record for the same (room_id, user_id). */
  ghost predicate MemberKeysUnique(members: seq<Member>)
  {
    Pairwise(members, KeysDiffer())
  }

  /** current_members is the number of member records of the room not set to "left". */
  ghost predicate MemberCountsAgree(rooms: seq<Room>, members: seq<Member>)
  {
    forall i :: 0 <= i < |rooms| ==> rooms[i].currentMembers == Count(members, CountedIn(rooms[i].id))
  }

  ghost predicate VoteKeysUnique(votes: seq<Vote>)
  {
    forall i, j :: 0 <= i < j < |votes| ==>
      !(votes[i].roomId == votes[j].roomId && votes[i].recommendationId == votes[j].recommendationId
        && votes[i].userId == votes[j].userId)
  }

  ghost predicate StopKeysUnique(stops: seq<StopVote>)
  {
    forall i, j :: 0 <= i < j < |stops| ==>
      !(stops[i].roomId == stops[j].roomId && stops[i].recommendationId == stops[j].recommendationId
        && stops[i].userId == stops[j].userId)
  }

  /** execute_investment upserts analytics by room_id: one document per room. */
  ghost predicate AnalyticsKeysUnique(docs: seq<Analytics>)
  {
    forall i, j :: 0 <= i < j < |docs| ==> docs[i].roomId != docs[j].roomId
  }

  ghost predicate RoomsInv(rooms: seq<Room>, members: seq<Member>, issued: set<string>)
  {
    RoomIdsIssued(rooms, issued) && MembersWellFormed(members, issued)
    && MemberKeysUnique(members) && MemberCountsAgree(rooms, members)
  }

  /** The database: every collection in natural (insertion) order. */
  class Db {
    var rooms: seq<Room>
    var members: seq<Member>
    var votes: seq<Vote>
    var stopVotes: seq<StopVote>
    var contributions: seq<Contribution>
    var wallets: seq<Wallet>
    var transactions: seq<WalletTx>
    var withdrawals: seq<Withdrawal>
    var analytics: seq<Analytics>
    var executions: seq<Execution>
    /** users: Firebase uid -> database id (get_user_by_firebase_uid). */
    var users: map<string, string>
    /** Every room id Mongo has minted so far. */
    ghost var issuedRoomIds: set<string>

    ghost predicate Valid()
      reads this`rooms, this`members, this`issuedRoomIds, this`votes, this`stopVotes, this`analytics
    {
      RoomsInv(rooms, members, issuedRoomIds) && VoteKeysUnique(votes) && StopKeysUnique(stopVotes)
      && AnalyticsKeysUnique(analytics)
    }

    constructor (users: map<string, string>)
      ensures Valid()
      ensures rooms == [] && members == [] && votes == [] && stopVotes == []
      ensures contributions == [] && wallets == [] && transactions == [] && withdrawals == []
      ensures analytics == [] && executions == [] && this.users == users
    {
      rooms, members, votes, stopVotes := [], [], [], [];
      contributions, wallets, transactions, withdrawals := [], [], [], [];
      analytics, executions := [], [];
      this.users := users;
      issuedRoomIds := {};
    }
  }
}
