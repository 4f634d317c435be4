/**
 * Shared vocabulary for the framework model: result wrappers, JavaScript
 * values as the framework sees them (truthiness, `String.prototype.trim`,
 * the regular-expression class `\s`), ASCII case mapping and the small
 * sequence utilities the framework uses (`indexOf`, `[...new Set(xs)]`,
 * `filter`).
 */
module JsCommon {

  datatype Option<T> = None | Some(value: T)

  datatype Result<T, E> = Success(value: T) | Failure(error: E)

  /** A JavaScript value held in a record, a select or a form field. */
  datatype Scalar =
    | Undefined
    | Null
    | Bool(b: bool)
    | Num(n: real)
    | Str(s: string)

  /** An `{ value, text }` entry handed to a select. */
  datatype Opcao = Opcao(valor: string, texto: string)

  /** ECMAScript ToBoolean on the values the framework stores. */
  predicate Truthy(v: Scalar) {
    match v
    case Undefined => false
    case Null => false
    case Bool(b) => b
    case Num(n) => n != 0.0
    case Str(s) => s != ""
  }

  /** A string is truthy exactly when it is not empty. */
  predicate TruthyStr(s: string) { s != "" }

  /** Property lookup on a record: a missing key reads as `undefined`. */
  function Get(r: map<string, Scalar>, k: string): (v: Scalar)
    ensures k !in r ==> v == Undefined
    ensures k in r ==> v == r[k]
  {
    if k in r then r[k] else Undefined
  }

  /**
   * The characters `String.prototype.trim` removes and the regular-expression
   * class `\s` matches: WhiteSpace and LineTerminator of ECMAScript.
   */
  predicate IsJsSpace(c: char) {
    c == '\t' || c == '\n' || c == '\U{000B}' || c == '\U{000C}' || c == '\r'
    || c == ' ' || c == '\U{00A0}' || c == '\U{1680}'
    || ('\U{2000}' <= c <= '\U{200A}')
    || c == '\U{2028}' || c == '\U{2029}' || c == '\U{202F}' || c == '\U{205F}'
    || c == '\U{3000}' || c == '\U{FEFF}'
  }

  /** Every character is whitespace (vacuously true of ""). */
  predicate IsBlank(s: string) {
    forall i :: 0 <= i < |s| ==> IsJsSpace(s[i])
  }

  function TrimStart(s: string): (r: string)
    ensures |r| <= |s| && r == s[|s| - |r|..]
    ensures r == "" || !IsJsSpace(r[0])
    ensures IsBlank(s[..|s| - |r|])
  {
    if |s| > 0 && IsJsSpace(s[0]) then
      var r := TrimStart(s[1..]);
      assert s[..|s| - |r|] == [s[0]] + s[1..][..|s| - 1 - |r|];
      r
    else s
  }

  function TrimEnd(s: string): (r: string)
    ensures |r| <= |s| && r == s[..|r|]
    ensures r == "" || !IsJsSpace(r[|r| - 1])
    ensures IsBlank(s[|r|..])
  {
    if |s| > 0 && IsJsSpace(s[|s| - 1]) then
      var r := TrimEnd(s[..|s| - 1]);
      assert s[|r|..] == s[..|s| - 1][|r|..] + [s[|s| - 1]];
      r
    else s
  }

  /** `String.prototype.trim`. */
  function Trim(s: string): (r: string)
    ensures r == "" || (!IsJsSpace(r[0]) && !IsJsSpace(r[|r| - 1]))
  {
    TrimEnd(TrimStart(s))
  }

  /** `s.trim() === ''` holds exactly for the all-whitespace strings. */
  lemma TrimEmptyIffBlank(s: string)
    ensures Trim(s) == "" <==> IsBlank(s)
  {
  }

  /**
   * `!v || v.trim().length === 0`: Some(true) for a missing or blank value,
   * Some(false) for a string with a non-space character, None when `trim`
   * is called on a value that is not a string (a TypeError).
   */
  function MissingOrBlank(v: Scalar): (r: Option<bool>)
    ensures r == Some(true) <==> !Truthy(v) || (v.Str? && IsBlank(v.s))
    ensures r == Some(false) <==> v.Str? && !IsBlank(v.s)
    ensures r.None? <==> Truthy(v) && !v.Str?
  {
    if !Truthy(v) then Some(true)
    else if v.Str? then
      TrimEmptyIffBlank(v.s);
      Some(|Trim(v.s)| == 0)
    else None
  }

  /** Trimming twice is trimming once. */
  lemma TrimIdempotent(s: string)
    ensures Trim(Trim(s)) == Trim(s)
  {
    var t := Trim(s);
    assert TrimStart(t) == t;
    assert TrimEnd(t) == t;
  }

  predicate IsAsciiUpper(c: char) { 'A' <= c <= 'Z' }
  predicate IsAsciiLower(c: char) { 'a' <= c <= 'z' }
  predicate IsAsciiDigit(c: char) { '0' <= c <= '9' }

  /** Case mapping of one character, restricted to the ASCII letters. */
  function LowerChar(c: char): (r: char)
    ensures IsAsciiUpper(c) ==> IsAsciiLower(r) && r as int == c as int + 32
    ensures !IsAsciiUpper(c) ==> r == c
  {
    if IsAsciiUpper(c) then (c as int + 32) as char else c
  }

  function UpperChar(c: char): (r: char)
    ensures IsAsciiLower(c) ==> IsAsciiUpper(r) && r as int == c as int - 32
    ensures !IsAsciiLower(c) ==> r == c
  {
    if IsAsciiLower(c) then (c as int - 32) as char else c
  }

  /** `String.prototype.toLowerCase` on ASCII letters; other characters are kept. */
  function ToLower(s: string): (r: string)
    ensures |r| == |s|
    ensures forall i :: 0 <= i < |s| ==> r[i] == LowerChar(s[i])
  {
    if s == [] then [] else [LowerChar(s[0])] + ToLower(s[1..])
  }

  /**
   * `Array.prototype.indexOf`: the first position holding `x`, or -1.
   */
  function IndexOf<T(==)>(s: seq<T>, x: T): (r: int)
    ensures -1 <= r < |s|
    ensures r == -1 <==> x !in s
    ensures r >= 0 ==> s[r] == x && forall j :: 0 <= j < r ==> s[j] != x
  {
    if |s| == 0 then -1
    else if s[0] == x then 0
    else var k := IndexOf(s[1..], x); if k == -1 then -1 else k + 1
  }

  /** No element occurs twice. */
  predicate NoDuplicates<T(==)>(s: seq<T>) {
    forall i, j :: 0 <= i < j < |s| ==> s[i] != s[j]
  }

  /**
   * `[...new Set(s)]`: the distinct elements of `s` in order of first
   * appearance; a later repetition of an element is dropped.
   */
  function Distinct<T(==)>(s: seq<T>): (r: seq<T>)
    ensures NoDuplicates(r)
    ensures forall i :: 0 <= i < |r| ==> r[i] in s
    ensures forall i :: 0 <= i < |s| ==> s[i] in r
  {
    if s == [] then []
    else
      var p := Distinct(s[..|s| - 1]);
      assert forall i :: 0 <= i < |s| - 1 ==> s[..|s| - 1][i] == s[i];
      if s[|s| - 1] in p then p else p + [s[|s| - 1]]
  }

  lemma IndexOfPrefix<T>(s: seq<T>, n: int, x: T)
    requires 0 <= n <= |s| && x in s[..n]
    ensures IndexOf(s, x) == IndexOf(s[..n], x)
  {
    var k := IndexOf(s[..n], x);
    assert s[..n][k] == s[k];
    assert forall j :: 0 <= j < k ==> s[..n][j] == s[j];
  }

  /**
   * The order `Distinct` keeps is the order of first appearance: an
   * element placed earlier in the result occurs for the first time earlier
   * in `s`.
   */
  lemma {:induction false} DistinctFirstAppearance<T>(s: seq<T>, i: int, j: int)
    requires 0 <= i < j < |Distinct(s)|
    ensures IndexOf(s, Distinct(s)[i]) < IndexOf(s, Distinct(s)[j])
  {
    var n := |s| - 1;
    var p := Distinct(s[..n]);
    var d := Distinct(s);
    assert forall k :: 0 <= k < |p| ==> d[k] == p[k];
    assert forall k :: 0 <= k < |p| ==> p[k] in s[..n];
    IndexOfPrefix(s, n, d[i]);
    if j < |p| {
      IndexOfPrefix(s, n, d[j]);
      DistinctFirstAppearance(s[..n], i, j);
    } else {
      // d[j] is the last element of s, whose first occurrence is at n.
      assert d[j] == s[n] && s[n] !in s[..n];
      assert forall k :: 0 <= k < n ==> s[..n][k] == s[k];
      assert IndexOf(s, d[j]) == n;
    }
  }

  /**
   * The loop `for (x of xs) if (!ok(x)) throw ...`: the position of the
   * first element that fails `ok`, or None when every element passes.
   */
  function FirstFailure<T>(s: seq<T>, ok: T -> bool): (r: Option<nat>)
    ensures r.None? <==> forall i :: 0 <= i < |s| ==> ok(s[i])
    ensures r.Some? ==> r.value < |s| && !ok(s[r.value]) && forall j :: 0 <= j < r.value ==> ok(s[j])
  {
    if s == [] then None
    else if !ok(s[0]) then Some(0)
    else
      var k := FirstFailure(s[1..], ok);
      assert forall i :: 1 <= i < |s| ==> s[i] == s[1..][i - 1];
      if k.None? then None else Some(k.value + 1)
  }

  predicate SortedInts(s: seq<int>) {
    forall i, j :: 0 <= i < j < |s| ==> s[i] <= s[j]
  }

  predicate StrictlyIncreasing(s: seq<int>) {
    forall i, j :: 0 <= i < j < |s| ==> s[i] < s[j]
  }

  function InsertInt(x: int, s: seq<int>): (r: seq<int>)
    requires SortedInts(s)
    ensures SortedInts(r) && |r| == |s| + 1
    ensures multiset(r) == multiset(s) + multiset{x}
    ensures forall y :: y in r <==> y == x || y in s
  {
    if s == [] || x <= s[0] then [x] + s
    else
      var t := InsertInt(x, s[1..]);
      assert s == [s[0]] + s[1..];
      assert forall k :: 0 <= k < |t| ==> s[0] <= t[k] by {
        forall k | 0 <= k < |t| ensures s[0] <= t[k] {
          assert t[k] in t;
        }
      }
      SortedCons(s[0], t);
      [s[0]] + t
  }

  lemma SortedCons(h: int, t: seq<int>)
    requires SortedInts(t) && forall k :: 0 <= k < |t| ==> h <= t[k]
    ensures SortedInts([h] + t)
  {
  }

  /** Inserting a new element into a strictly increasing list keeps it strictly increasing. */
  lemma {:induction false} InsertIntStrict(x: int, s: seq<int>)
    requires SortedInts(s)
    ensures StrictlyIncreasing(s) && x !in s ==> StrictlyIncreasing(InsertInt(x, s))
  {
    if StrictlyIncreasing(s) && x !in s && s != [] && x > s[0] {
      var t := InsertInt(x, s[1..]);
      assert s == [s[0]] + s[1..];
      InsertIntStrict(x, s[1..]);
      forall k | 0 <= k < |t| ensures s[0] < t[k] {
        assert t[k] in t;
      }
      StrictCons(s[0], t);
    }
  }

  lemma StrictCons(h: int, t: seq<int>)
    requires StrictlyIncreasing(t) && forall k :: 0 <= k < |t| ==> h < t[k]
    ensures StrictlyIncreasing([h] + t)
  {
  }

  /**
   * `Array.prototype.sort((a, b) => a - b)` on integers: the ascending
   * permutation; on distinct input it is strictly increasing.
   */
  function SortInts(s: seq<int>): (r: seq<int>)
    ensures SortedInts(r) && |r| == |s|
    ensures multiset(r) == multiset(s)
    ensures forall x :: x in r <==> x in s
    ensures NoDuplicates(s) ==> StrictlyIncreasing(r)
  {
    if s == [] then []
    else
      assert s == [s[0]] + s[1..];
      var t := SortInts(s[1..]);
      assert NoDuplicates(s) ==> NoDuplicates(s[1..]) && s[0] !in s[1..];
      var r := InsertInt(s[0], t);
      InsertIntStrict(s[0], t);
      assert multiset(r) == multiset(s);
      r
  }

  /** `Math.max(...s)` on a non-empty list. */
  function MaxInt(s: seq<int>): (m: int)
    requires |s| > 0
    ensures m in s && forall i :: 0 <= i < |s| ==> s[i] <= m
  {
    if |s| == 1 then s[0]
    else
      var t := MaxInt(s[1..]);
      assert forall i :: 1 <= i < |s| ==> s[i] == s[1..][i - 1];
      if s[0] >= t then s[0] else t
  }

  /** `Array.from({ length: n }, (_, i) => i)`. */
  function Range(n: nat): (r: seq<int>)
    ensures |r| == n && forall i :: 0 <= i < n ==> r[i] == i
  {
    seq(n, i => i)
  }

  /** One more element of a prefix. */
  lemma PrefixStep<T>(s: seq<T>, i: nat)
    requires i < |s|
    ensures s[..i + 1] == s[..i] + [s[i]]
  {
  }

  /** One more element of a slice. */
  lemma SliceStep<T>(s: seq<T>, a: nat, i: nat)
    requires a <= i < |s|
    ensures s[a..i + 1] == s[a..i] + [s[i]]
  {
  }

  /** Concatenation is associative. */
  lemma ConcatAssoc<T>(a: seq<T>, b: seq<T>, c: seq<T>)
    ensures (a + b) + c == a + (b + c)
  {
  }
}
