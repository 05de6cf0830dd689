/**
 * Values shared by every part of the model: optional values, Python
 * truthiness of optional strings, the syntax of BSON ObjectIds, the amount
 * bounds that the HTTP layer enforces and Python's string slicing and case
 * conversion.
 */
module Base {

  datatype Option<T> = None | Some(value: T)

  /** Timestamps (datetime.utcnow()) are opaque, caller-supplied instants. */
  type Time = int

  /** Python truthiness of a value that may be None: present and non-empty. */
  predicate Truthy(o: Option<string>)
  {
    o.Some? && o.value != ""
  }

  predicate IsHexDigit(c: char)
  {
    ('0' <= c <= '9') || ('a' <= c <= 'f') || ('A' <= c <= 'F')
  }

  /** bson.ObjectId(s) accepts exactly the strings of 24 hexadecimal digits. */
  predicate IsObjectId(s: string)
  {
    |s| == 24 && forall i :: 0 <= i < |s| ==> IsHexDigit(s[i])
  }

  function LowerChar(c: char): char
  {
    if 'A' <= c <= 'Z' then (c as int + 32) as char else c
  }

  function UpperChar(c: char): char
  {
    if 'a' <= c <= 'z' then (c as int - 32) as char else c
  }

  /** str.lower() on ASCII text; str(ObjectId(s)) is Lower(s). */
  function Lower(s: string): string
  {
    seq(|s|, i requires 0 <= i < |s| => LowerChar(s[i]))
  }

  /** str.upper() on ASCII text. */
  function Upper(s: string): string
  {
    seq(|s|, i requires 0 <= i < |s| => UpperChar(s[i]))
  }

  /** The form Mongo gives a freshly minted ObjectId: 24 lower-case hex digits. */
  predicate IsCanonicalObjectId(s: string)
  {
    IsObjectId(s) && Lower(s) == s
  }

  /** Python's s[:n] for n >= 0. */
  function Take(s: string, n: nat): (r: string)
    ensures |r| == if n <= |s| then n else |s|
    ensures r <= s
  {
    if n <= |s| then s[..n] else s
  }

  /** get_current_user_id followed by get_user_by_firebase_uid (`users` maps
      Firebase uids to database ids): the caller's database id, or None,
      which the handlers answer with 404. */
  function CallerId(users: map<string, string>, userId: Option<string>): Option<string>
  {
    if Truthy(userId) && userId.value in users then Some(users[userId.value]) else None
  }

  /** f"{prefix}{uuid.uuid4().hex[:8].upper()}", where `hex` is the uuid's
      hexadecimal string: the prefix and eight upper-case hex digits. */
  function HexReference(prefix: string, hex: string): (r: string)
    requires |hex| >= 8 && forall i :: 0 <= i < |hex| ==> IsHexDigit(hex[i])
    ensures |r| == |prefix| + 8 && r[..|prefix|] == prefix
    ensures forall i :: |prefix| <= i < |r| ==> ('0' <= r[i] <= '9') || ('A' <= r[i] <= 'F')
  {
    var tail := Upper(Take(hex, 8));
    forall i | 0 <= i < 8 ensures ('0' <= tail[i] <= '9') || ('A' <= tail[i] <= 'F') {
      assert tail[i] == UpperChar(hex[i]) && IsHexDigit(hex[i]);
    }
    var r := prefix + tail;
    assert forall i :: |prefix| <= i < |r| ==> r[i] == tail[i - |prefix|];
    r
  }

  /** int(request.args.get(name, default)) for an argument that parses. */
  function ArgOr(arg: Option<int>, default: int): int
  {
    if arg.Some? then arg.value else default
  }

  /** One page of a list endpoint, or the error it answers with. */
  datatype Listing<T> = PageError(code: int) | Listed(items: seq<T>, limit: int, skip: int, count: nat)

  /** The lower and upper bound that top-up, withdraw and contribute share. */
  const MinAmount: real := 100.0
  const MaxAmount: real := 1000000.0

  /** The routes reject `amount < 100 or amount > 1000000`. */
  predicate AmountInRange(amount: real)
  {
    !(amount < MinAmount || amount > MaxAmount)
  }

  lemma LowerIsObjectId(s: string)
    requires IsObjectId(s)
    ensures IsCanonicalObjectId(Lower(s))
  {
    var l := Lower(s);
    forall i | 0 <= i < |l| ensures IsHexDigit(l[i]) && LowerChar(l[i]) == l[i] {
      assert l[i] == LowerChar(s[i]);
    }
    assert Lower(l) == l;
  }

  /** The ids minted for the transactions of a loop, one per iteration, from a counter. */
  function TxIds(mint: nat -> string, n: nat): (ids: seq<string>)
    ensures |ids| == n
  {
    seq(n, k requires 0 <= k < n => mint(k))
  }
}
