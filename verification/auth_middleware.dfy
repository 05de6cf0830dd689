/**
 * The authentication decorators: the Authorization header must read
 * "Bearer <token>", the token is the second field of the header split on
 * single spaces, and an opaque verifier turns a token into the caller's
 * Firebase uid. The uid stored for the handler is what get_current_user_id
 * returns, so every handler receives it as an Option<string>.
 */
module AuthMiddleware {
  import opened Base

  // ---- str.split(' ') ----

  /** s.split(' '): the fields between single spaces, empty ones included. */
  function SplitSpace(s: string): (r: seq<string>)
    ensures |r| >= 1
    ensures forall k :: 0 <= k < |r| ==> ' ' !in r[k]
    ensures ' ' in s <==> |r| >= 2
  {
    if s == [] then [""]
    else
      var rest := SplitSpace(s[1..]);
      if s[0] == ' ' then [""] + rest
      else [[s[0]] + rest[0]] + rest[1..]
  }

  /** ' '.join(parts). */
  function JoinSpace(parts: seq<string>): string
    requires |parts| >= 1
  {
    if |parts| == 1 then parts[0] else parts[0] + " " + JoinSpace(parts[1..])
  }

  /** Joining the fields back with single spaces gives the header again. */
  lemma {:induction false} JoinSplit(s: string)
    ensures JoinSpace(SplitSpace(s)) == s
  {
    if s != [] {
      JoinSplit(s[1..]);
      var rest := SplitSpace(s[1..]);
      if s[0] == ' ' {
        JoinEmptyHead(rest);
      } else {
        JoinExtendHead(s[0], rest);
      }
      assert s == [s[0]] + s[1..];
    }
  }

  lemma {:induction false} JoinEmptyHead(rest: seq<string>)
    requires |rest| >= 1
    ensures JoinSpace([""] + rest) == " " + JoinSpace(rest)
  {
    assert ([""] + rest)[1..] == rest;
  }

  lemma {:induction false} JoinExtendHead(c: char, rest: seq<string>)
    requires |rest| >= 1
    ensures JoinSpace([[c] + rest[0]] + rest[1..]) == [c] + JoinSpace(rest)
  {
    var r := [[c] + rest[0]] + rest[1..];
    if |rest| == 1 {
      assert r == [[c] + rest[0]];
    } else {
      assert r[1..] == rest[1..];
      var t := JoinSpace(rest[1..]);
      assert JoinSpace(r) == r[0] + " " + t;
      assert JoinSpace(rest) == rest[0] + " " + t;
      assert r[0] + " " + t == [c] + (rest[0] + " " + t);
    }
  }

  /** Splitting fields that hold no space, joined with single spaces, gives
      the fields back. */
  lemma {:induction false} SplitJoin(parts: seq<string>)
    requires |parts| >= 1
    requires forall k :: 0 <= k < |parts| ==> ' ' !in parts[k]
    ensures SplitSpace(JoinSpace(parts)) == parts
    decreases |parts|, |parts[0]|
  {
    if |parts| == 1 {
      NoSpaceSplit(parts[0]);
    } else {
      var tail := parts[1..];
      assert forall k :: 0 <= k < |tail| ==> tail[k] == parts[k + 1];
      SplitJoin(tail);
      SplitWord(parts[0], JoinSpace(tail));
      assert JoinSpace(parts) == parts[0] + " " + JoinSpace(tail);
      assert parts == [parts[0]] + tail;
    }
  }

  lemma {:induction false} NoSpaceSplit(w: string)
    requires ' ' !in w
    ensures SplitSpace(w) == [w]
  {
    if w != [] {
      NoSpaceSplit(w[1..]);
      assert [w[0]] + w[1..] == w;
    }
  }

  /** A word followed by a space and more text splits into the word and the
      fields of the text. */
  lemma {:induction false} SplitWord(w: string, t: string)
    requires ' ' !in w
    ensures SplitSpace(w + " " + t) == [w] + SplitSpace(t)
  {
    if w == [] {
      assert w + " " + t == [' '] + t;
      assert ([' '] + t)[1..] == t;
    } else {
      SplitWord(w[1..], t);
      assert (w + " " + t)[1..] == w[1..] + " " + t;
      assert [w[0]] + w[1..] == w;
    }
  }

  // ---- the header ----

  const Prefix: string := "Bearer "

  predicate StartsWith(s: string, prefix: string)
  {
    |prefix| <= |s| && s[..|prefix|] == prefix
  }

  /** auth_header.split(' ')[1]; a header starting with "Bearer " has a
      space, so the second field exists. */
  function Token(header: string): string
    requires StartsWith(header, Prefix)
  {
    assert header[6] == ' ';
    SplitSpace(header)[1]
  }

  /** The characters of s before its first space. */
  function FirstWord(s: string): (w: string)
    ensures ' ' !in w && StartsWith(s, w)
    ensures |w| < |s| ==> s[|w|] == ' '
  {
    if s == [] || s[0] == ' ' then "" else [s[0]] + FirstWord(s[1..])
  }

  lemma {:induction false} SplitHead(s: string)
    ensures SplitSpace(s)[0] == FirstWord(s)
  {
    if s != [] && s[0] != ' ' {
      SplitHead(s[1..]);
    }
  }

  /** The token is the text after "Bearer " up to the next space (or the end). */
  lemma TokenIsFirstWord(header: string)
    requires StartsWith(header, Prefix)
    ensures Token(header) == FirstWord(header[|Prefix|..])
    ensures ' ' !in Token(header)
  {
    var rest := header[|Prefix|..];
    assert header == "Bearer" + " " + rest by {
      assert header == header[..|Prefix|] + rest;
    }
    SplitWord("Bearer", rest);
    SplitHead(rest);
  }

  /** The token is empty exactly when nothing follows "Bearer " or a second
      space does, as in "Bearer " and "Bearer  <x>"; require_auth refuses both. */
  lemma EmptyTokens(header: string)
    requires StartsWith(header, Prefix)
    ensures Token(header) == "" <==> |header| == |Prefix| || header[|Prefix|] == ' '
  {
    TokenIsFirstWord(header);
    var rest := header[|Prefix|..];
    assert rest != [] ==> rest[0] == header[|Prefix|];
  }

  // ---- the decorators ----

  /** What require_auth does with a request: refuse it with a status code, or
      run the handler with the caller's uid as current_user_id. */
  datatype Gate = Denied(code: int) | Admitted(uid: string)

  /** require_auth: 401 without a header (or with an empty one), for a header
      not starting with "Bearer ", for an empty token and for a token the
      verifier rejects; otherwise the verified uid. `verify` stands for the
      Firebase token check, None for a rejection. */
  function RequireAuth(header: Option<string>, verify: string -> Option<string>): (g: Gate)
    ensures g.Denied? ==> g.code == 401
    ensures g.Admitted? <==>
      Truthy(header) && StartsWith(header.value, Prefix) && Token(header.value) != ""
      && verify(Token(header.value)).Some?
    ensures g.Admitted? ==> g.uid == verify(Token(header.value)).value
  {
    if !Truthy(header) then Denied(401)
    else if !StartsWith(header.value, Prefix) then Denied(401)
    else
      var token := Token(header.value);
      if token == "" then Denied(401)
      else match verify(token)
        case None => Denied(401)
        case Some(uid) => Admitted(uid)
  }

  /** optional_auth: never refuses; the identity is set only when a non-empty
      "Bearer " token verifies, and get_current_user_id is None otherwise. It
      sets exactly the identity require_auth would admit, and none where
      require_auth would refuse. */
  function OptionalAuth(header: Option<string>, verify: string -> Option<string>): (id: Option<string>)
    ensures id.Some? <==>
      Truthy(header) && StartsWith(header.value, Prefix) && Token(header.value) != ""
      && verify(Token(header.value)).Some?
    ensures id.Some? ==> id == verify(Token(header.value))
    ensures id == (match RequireAuth(header, verify) case Admitted(uid) => Some(uid) case Denied(_) => None)
  {
    if header.Some? && header.value != "" && StartsWith(header.value, Prefix) then
      var token := Token(header.value);
      if token != "" then verify(token) else None
    else None
  }

  /** The verifier is only ever asked about a non-empty word. */
  lemma VerifiedTokenIsOneWord(header: Option<string>, verify: string -> Option<string>)
    requires RequireAuth(header, verify).Admitted?
    ensures var token := FirstWord(header.value[|Prefix|..]);
      token != "" && ' ' !in token && verify(token) == Some(RequireAuth(header, verify).uid)
  {
    TokenIsFirstWord(header.value);
  }
}
