/** Shared vocabulary: optional values, handler replies, JavaScript string
    helpers and an order-preserving filter. */
module Common {

  datatype Option<+T> = None | Some(value: T)

  /** What a request handler answers: a success status with its body, or an
      error status with its message (an `ApiError` thrown to the framework's
      error handler, or a JSON error written directly). */
  datatype Reply<+T> = Ok(status: int, body: T) | Err(status: int, message: string)

  /** JavaScript truthiness of an optional string: `null`, `undefined` and
      `''` are falsy. */
  predicate Truthy(s: Option<string>) {
    s.Some? && s.value != ""
  }

  /** `a || b` on an optional string. */
  function OrElse(s: Option<string>, fallback: string): (r: string)
    ensures Truthy(s) ==> r == s.value
    ensures !Truthy(s) ==> r == fallback
  {
    if Truthy(s) then s.value else fallback
  }

  /** What a calendar's "add n years" or "add n days" on a timestamp
      satisfies: adding at least one unit moves strictly forward. */
  ghost predicate MovesForward(add: (int, nat) -> int) {
    forall t: int, n: nat {:trigger add(t, n)} :: n >= 1 ==> add(t, n) > t
  }

  // ---------------------------------------------------------------------
  // Characters

  predicate IsUpper(c: char) { 'A' <= c <= 'Z' }
  predicate IsLower(c: char) { 'a' <= c <= 'z' }
  predicate IsDigit(c: char) { '0' <= c <= '9' }

  /** The characters of JavaScript's `\s` class, which are also the ones
      `String.prototype.trim` removes. */
  predicate IsJsSpace(c: char) {
    || c == ' ' || c == '\t' || c == '\n' || c == '\r'
    || c == '\U{000B}' || c == '\U{000C}' || c == '\U{00A0}' || c == '\U{1680}'
    || ('\U{2000}' <= c <= '\U{200A}')
    || c == '\U{2028}' || c == '\U{2029}' || c == '\U{202F}' || c == '\U{205F}'
    || c == '\U{3000}' || c == '\U{FEFF}'
  }

  function LowerChar(c: char): (d: char)
    ensures IsUpper(c) ==> IsLower(d) && d as int == c as int + 32
    ensures !IsUpper(c) ==> d == c
  {
    if IsUpper(c) then (c as int + 32) as char else c
  }

  /** `toLowerCase` on the ASCII letters (see README for non-ASCII letters). */
  function Lower(s: string): (r: string)
    ensures |r| == |s|
    ensures forall i :: 0 <= i < |s| ==> r[i] == LowerChar(s[i])
    ensures forall i :: 0 <= i < |r| ==> !IsUpper(r[i])
  {
    seq(|s|, i requires 0 <= i < |s| => LowerChar(s[i]))
  }

  // ---------------------------------------------------------------------
  // trim and replace

  function TrimStart(s: string): (r: string)
    ensures |r| <= |s| && r == s[|s| - |r|..]
    ensures r == [] || !IsJsSpace(r[0])
    ensures forall i :: 0 <= i < |s| - |r| ==> IsJsSpace(s[i])
  {
    if s != [] && IsJsSpace(s[0]) then TrimStart(s[1..]) else s
  }

  function TrimEnd(s: string): (r: string)
    ensures |r| <= |s| && r == s[..|r|]
    ensures r == [] || !IsJsSpace(r[|r| - 1])
    ensures forall i :: |r| <= i < |s| ==> IsJsSpace(s[i])
  {
    if s != [] && IsJsSpace(s[|s| - 1]) then TrimEnd(s[..|s| - 1]) else s
  }

  /** `String.prototype.trim`. */
  function Trim(s: string): (r: string)
    ensures r == [] || (!IsJsSpace(r[0]) && !IsJsSpace(r[|r| - 1]))
  {
    TrimEnd(TrimStart(s))
  }

  /** `pat` occurs in `s` starting at position `j`. */
  predicate OccursAt(s: string, pat: string, j: nat) {
    j + |pat| <= |s| && s[j..j + |pat|] == pat
  }

  /** The first position at or after `from` where `pat` occurs in `s`. */
  function IndexFrom(s: string, pat: string, from: nat): (r: Option<nat>)
    requires from <= |s|
    ensures r.Some? ==> from <= r.value && OccursAt(s, pat, r.value)
    ensures forall j: nat :: from <= j && (r.None? || j < r.value) ==> !OccursAt(s, pat, j)
    decreases |s| - from
  {
    if from + |pat| > |s| then None
    else if OccursAt(s, pat, from) then Some(from)
    else IndexFrom(s, pat, from + 1)
  }

  /** `s.replace(pat, rep)` with a string pattern: only the first occurrence
      is replaced. */
  function ReplaceFirst(s: string, pat: string, rep: string): (r: string)
    ensures (forall j: nat :: !OccursAt(s, pat, j)) ==> r == s
  {
    match IndexFrom(s, pat, 0)
    case None => s
    case Some(k) => s[..k] + rep + s[k + |pat|..]
  }

  lemma ReplaceFirstOfPrefix(pat: string, rest: string)
    ensures ReplaceFirst(pat + rest, pat, "") == rest
  {
    var s := pat + rest;
    assert OccursAt(s, pat, 0);
    assert s[|pat|..] == rest;
  }

  // ---------------------------------------------------------------------
  // Sequences

  /** `Array.prototype.filter`: the elements satisfying `p`, in their order. */
  function Filter<T>(s: seq<T>, p: T -> bool): (r: seq<T>)
    ensures |r| <= |s|
    ensures forall i :: 0 <= i < |r| ==> r[i] in s && p(r[i])
    ensures forall i :: 0 <= i < |s| && p(s[i]) ==> s[i] in r
    ensures multiset(r) <= multiset(s)
  {
    if s == [] then []
    else
      assert s == [s[0]] + s[1..];
      if p(s[0]) then [s[0]] + Filter(s[1..], p) else Filter(s[1..], p)
  }

  /** Each element is kept as often as it occurs, if it passes, else dropped. */
  lemma {:induction false} FilterMultiplicity<T>(s: seq<T>, p: T -> bool, x: T)
    ensures multiset(Filter(s, p))[x] == if p(x) then multiset(s)[x] else 0
  {
    if s != [] {
      FilterMultiplicity(s[1..], p, x);
      assert s == [s[0]] + s[1..];
      var tail := Filter(s[1..], p);
      assert multiset(s)[x] == multiset([s[0]])[x] + multiset(s[1..])[x];
      if p(s[0]) {
        assert Filter(s, p) == [s[0]] + tail;
        assert multiset(Filter(s, p))[x] == multiset([s[0]])[x] + multiset(tail)[x];
      } else {
        assert Filter(s, p) == tail;
      }
    }
  }

  /** Filtering a sequence whose elements all pass changes nothing. */
  lemma {:induction false} FilterAll<T>(s: seq<T>, p: T -> bool)
    requires forall i :: 0 <= i < |s| ==> p(s[i])
    ensures Filter(s, p) == s
  {
    if s != [] {
      FilterAll(s[1..], p);
      assert s == [s[0]] + s[1..];
    }
  }

  /** The number of elements satisfying `p`. */
  function Count<T>(s: seq<T>, p: T -> bool): (n: nat)
    ensures n <= |s|
    ensures n == |Filter(s, p)|
  {
    if s == [] then 0 else (if p(s[0]) then 1 else 0) + Count(s[1..], p)
  }

  /** The element at an optional position (`findUnique`'s row, or null). */
  function At<T>(s: seq<T>, k: Option<nat>): (r: Option<T>)
    ensures r.Some? <==> k.Some? && k.value < |s|
    ensures r.Some? ==> r.value == s[k.value]
  {
    if k.Some? && k.value < |s| then Some(s[k.value]) else None
  }

  /** The position of the first element satisfying `p` (`findFirst`). */
  function FindIndex<T>(s: seq<T>, p: T -> bool): (r: Option<nat>)
    ensures r.Some? ==> r.value < |s| && p(s[r.value])
    ensures r.Some? ==> forall j :: 0 <= j < r.value ==> !p(s[j])
    ensures r.None? ==> forall j :: 0 <= j < |s| ==> !p(s[j])
  {
    if s == [] then None
    else if p(s[0]) then Some(0)
    else match FindIndex(s[1..], p)
      case None => None
      case Some(k) => Some(k + 1)
  }
}
