/** Values shared by every module of the model: optional values and results,
    the error taxonomy of the HTTP layer, JSON bodies, and the string helpers
    the controllers rely on (prefix tests, `split`, decimal rendering,
    ASCII lower-casing). */
module Common {

  datatype Option<+T> = None | Some(value: T)

  /** A value that a partial update either leaves alone or replaces. */
  datatype Patch<+T> = Keep | Set(value: T)

  function Patched<T>(p: Patch<T>, current: T): T
  {
    match p
    case Keep => current
    case Set(v) => v
  }

  /** Two partial updates applied one after the other, as one update. */
  function Then<T>(first: Patch<T>, second: Patch<T>): Patch<T>
  {
    if second.Set? then second else first
  }

  /** Applying `first` and then `second` is applying their composition: the
      later supplied value wins. */
  lemma PatchedThen<T>(first: Patch<T>, second: Patch<T>, current: T)
    ensures Patched(second, Patched(first, current)) == Patched(Then(first, second), current)
  {
  }

  /** The error constants the controllers pass to Nest's HTTP exceptions. */
  datatype Code =
    | NoToken | NotApproved
    | IdentityLimitReached | IdentityAlreadyExists | OrganizationNotFound
    | NoOwnership | BadOidCredOffer | CredNotFound | NoUser
    | UserExpiredToken | UserInvalidScope | UserInvalidContext | BadEmailVerification
    | OrgExpiredToken | OrgInvalidScope | OrgInvalidContext
    | BadRecipientEmail
    | Unspecified  // an exception thrown without a payload

  /** How a request ends when it does not succeed. `ServerError` stands for
      everything Nest answers with 500: a dereferenced null, a plain `Error`
      thrown by the code or by a library it calls, a failed store write. */
  datatype Error =
    | BadRequest(code: Code)
    | BadRequestMessage(message: string)
    | Unauthorized(code: Code)
    | Forbidden(code: Code)
    | NotFound(code: Code)
    | Conflict(code: Code)
    | ServerError(reason: string)

  datatype Result<+T> = Ok(value: T) | Err(error: Error)

  /** The JSON values stored in `jsonb` columns and request bodies. */
  datatype Json =
    | JNull
    | JBool(b: bool)
    | JNum(n: int)
    | JStr(s: string)
    | JObj(fields: map<string, Json>)

  /** JavaScript truthiness of an optional string: absent and "" are falsy. */
  predicate Truthy(s: Option<string>)
  {
    s.Some? && s.value != ""
  }

  predicate StartsWith(s: string, prefix: string)
  {
    |prefix| <= |s| && s[..|prefix|] == prefix
  }

  predicate EndsWith(s: string, suffix: string)
  {
    |suffix| <= |s| && s[|s| - |suffix|..] == suffix
  }

  // ---------------------------------------------------------------------
  // String.prototype.split and String.prototype.includes for a non-empty
  // separator.
  // ---------------------------------------------------------------------

  predicate SepAt(s: string, sep: string, i: nat)
  {
    i + |sep| <= |s| && s[i..i + |sep|] == sep
  }

  /** The first position at or after `from` where `sep` occurs. */
  function FindFrom(s: string, sep: string, from: nat): (r: Option<nat>)
    requires |sep| > 0 && from <= |s|
    ensures r.Some? ==> from <= r.value && SepAt(s, sep, r.value)
    ensures r.Some? ==> forall j: nat :: from <= j < r.value ==> !SepAt(s, sep, j)
    ensures r.None? ==> forall j: nat :: from <= j ==> !SepAt(s, sep, j)
    decreases |s| - from
  {
    if from + |sep| > |s| then None
    else if s[from..from + |sep|] == sep then Some(from)
    else FindFrom(s, sep, from + 1)
  }

  function Find(s: string, sep: string): (r: Option<nat>)
    requires |sep| > 0
  {
    FindFrom(s, sep, 0)
  }

  /** `s.includes(sep)`. */
  predicate Contains(s: string, sep: string)
    requires |sep| > 0
  {
    Find(s, sep).Some?
  }

  lemma ContainsIff(s: string, sep: string)
    requires |sep| > 0
    ensures Contains(s, sep) <==> exists j: nat :: SepAt(s, sep, j)
  {
  }

  /** `s.split(sep)`: the pieces between successive non-overlapping
      occurrences of `sep`, scanning left to right; always at least one. */
  function Split(s: string, sep: string): (parts: seq<string>)
    requires |sep| > 0
    ensures |parts| >= 1
    ensures Find(s, sep).None? ==> parts == [s]
    ensures Find(s, sep).Some? ==> parts[0] == s[..Find(s, sep).value] && |parts| >= 2
    decreases |s|
  {
    match Find(s, sep)
    case None => [s]
    case Some(i) => [s[..i]] + Split(s[i + |sep|..], sep)
  }

  function Join(parts: seq<string>, sep: string): string
  {
    if |parts| == 0 then ""
    else if |parts| == 1 then parts[0]
    else parts[0] + sep + Join(parts[1..], sep)
  }

  /** No piece of a split contains the separator, and joining the pieces
      back with the separator gives the original string. */
  lemma {:induction false} SplitJoin(s: string, sep: string)
    requires |sep| > 0
    ensures Join(Split(s, sep), sep) == s
    ensures forall k :: 0 <= k < |Split(s, sep)| ==> !Contains(Split(s, sep)[k], sep)
    decreases |s|
  {
    match Find(s, sep)
    case None =>
    case Some(i) =>
      var rest := s[i + |sep|..];
      SplitJoin(rest, sep);
      var head := s[..i];
      assert Split(s, sep) == [head] + Split(rest, sep);
      assert s == head + sep + rest by {
        assert s[i..i + |sep|] == sep;
      }
      if Contains(head, sep) {
        var j := Find(head, sep).value;
        assert head[j..j + |sep|] == s[j..j + |sep|];
        assert SepAt(s, sep, j);
        assert false;
      }
  }

  lemma NoSepFirstPiece(s: string, sep: string)
    requires |sep| > 0 && !Contains(s, sep)
    ensures Split(s, sep) == [s]
  {
  }

  // ---------------------------------------------------------------------
  // Decimal rendering of non-negative numbers (`n.toString()`).
  // ---------------------------------------------------------------------

  predicate IsDigit(c: char)
  {
    '0' <= c <= '9'
  }

  function DigitChar(d: nat): (c: char)
    requires d < 10
    ensures IsDigit(c) && c as int - '0' as int == d
  {
    (d + '0' as int) as char
  }

  function NatToString(n: nat): (s: string)
    ensures |s| >= 1
    ensures forall k :: 0 <= k < |s| ==> IsDigit(s[k])
    ensures (s[0] == '0') <==> (n == 0)
    decreases n
  {
    if n < 10 then [DigitChar(n)] else NatToString(n / 10) + [DigitChar(n % 10)]
  }

  function ParseNat(s: string): nat
    requires forall k :: 0 <= k < |s| ==> IsDigit(s[k])
  {
    if s == [] then 0
    else
      assert IsDigit(s[|s| - 1]);
      ParseNat(s[..|s| - 1]) * 10 + (s[|s| - 1] as int - '0' as int)
  }

  /** Reading back a rendered number gives the number. */
  lemma {:induction false} ParseNatToString(n: nat)
    ensures ParseNat(NatToString(n)) == n
    decreases n
  {
    if n >= 10 {
      ParseNatToString(n / 10);
      var s := NatToString(n);
      assert s[..|s| - 1] == NatToString(n / 10);
    }
  }

  /** Distinct numbers render as distinct strings. */
  lemma NatToStringInjective(m: nat, n: nat)
    requires m != n
    ensures NatToString(m) != NatToString(n)
  {
    ParseNatToString(m);
    ParseNatToString(n);
  }

  // ---------------------------------------------------------------------
  // String.prototype.toLowerCase restricted to ASCII letters.
  // ---------------------------------------------------------------------

  function LowerChar(c: char): char
  {
    if 'A' <= c <= 'Z' then (c as int + 32) as char else c
  }

  function Lower(s: string): (r: string)
    ensures |r| == |s|
    ensures forall k :: 0 <= k < |s| ==> !('A' <= r[k] <= 'Z')
  {
    seq(|s|, k requires 0 <= k < |s| => LowerChar(s[k]))
  }

  lemma LowerIdempotent(s: string)
    ensures Lower(Lower(s)) == Lower(s)
  {
  }

  // ---------------------------------------------------------------------
  // Fresh primary keys.
  // ---------------------------------------------------------------------

  /** A key that is not yet used and contains no colon: the model's stand-in
      for the uuid the database generates for a new row. */
  method FreshKey(used: set<string>) returns (k: string)
    ensures k !in used
    ensures ':' !in k && k != ""
  {
    var longest: nat := 0;
    var rest := used;
    while rest != {}
      invariant rest <= used
      invariant forall x | x in used && x !in rest :: |x| <= longest
      decreases rest
    {
      var x :| x in rest;
      if |x| > longest {
        longest := |x|;
      }
      rest := rest - {x};
    }
    k := seq(longest + 1, _ => 'k');
  }
}
