/**
 * String operations with the meaning of the Python and JavaScript built-ins the
 * page tools call: whitespace classes, `strip`/`trim`, ASCII lower-casing,
 * substring search, and literal replace-all (`str.replace`, and `String.replace`
 * with a global literal pattern).
 */
module Text {
  import opened Wrappers

  /** Python's `str.isspace()`, which is also the `\s` class of `re` on text. */
  predicate IsPySpace(c: char) {
    var n := c as int;
    (9 <= n <= 13) || (28 <= n <= 32) || n == 0x85 || n == 0xA0 || n == 0x1680
    || (0x2000 <= n <= 0x200A) || n == 0x2028 || n == 0x2029 || n == 0x202F
    || n == 0x205F || n == 0x3000
  }

  /** The characters JavaScript's `trim` removes: WhiteSpace and LineTerminator. */
  predicate IsJsSpace(c: char) {
    var n := c as int;
    (9 <= n <= 13) || n == 32 || n == 0xA0 || n == 0x1680 || (0x2000 <= n <= 0x200A)
    || n == 0x2028 || n == 0x2029 || n == 0x202F || n == 0x205F || n == 0x3000
    || n == 0xFEFF
  }

  // ---------------------------------------------------------------------
  // Stripping
  // ---------------------------------------------------------------------

  function TrimLeft(s: string, ws: char -> bool): string
    decreases |s|
  {
    if |s| > 0 && ws(s[0]) then TrimLeft(s[1..], ws) else s
  }

  function TrimRight(s: string, ws: char -> bool): string
    decreases |s|
  {
    if |s| > 0 && ws(s[|s| - 1]) then TrimRight(s[..|s| - 1], ws) else s
  }

  /** Removes the leading and the trailing characters that satisfy `ws`. */
  function Trim(s: string, ws: char -> bool): string {
    TrimRight(TrimLeft(s, ws), ws)
  }

  /** Python's `str.strip()` with no argument. */
  function PyStrip(s: string): string {
    Trim(s, IsPySpace)
  }

  /** JavaScript's `String.prototype.trim()`. */
  function JsTrim(s: string): string {
    Trim(s, IsJsSpace)
  }

  /** Neither end of `s` is a character of `ws`. */
  predicate TrimmedBy(s: string, ws: char -> bool) {
    s == [] || (!ws(s[0]) && !ws(s[|s| - 1]))
  }

  lemma {:induction false} TrimLeftShape(s: string, ws: char -> bool) returns (i: nat)
    ensures i <= |s| && TrimLeft(s, ws) == s[i..]
    ensures forall k :: 0 <= k < i ==> ws(s[k])
    ensures i < |s| ==> !ws(s[i])
    decreases |s|
  {
    if |s| > 0 && ws(s[0]) {
      var i' := TrimLeftShape(s[1..], ws);
      i := i' + 1;
      assert s[1..][i'..] == s[i..];
      forall k | 0 <= k < i ensures ws(s[k]) {
        if k > 0 { assert s[k] == s[1..][k - 1]; }
      }
    } else {
      i := 0;
    }
  }

  lemma {:induction false} TrimRightShape(s: string, ws: char -> bool) returns (j: nat)
    ensures j <= |s| && TrimRight(s, ws) == s[..j]
    ensures forall k :: j <= k < |s| ==> ws(s[k])
    ensures 0 < j ==> !ws(s[j - 1])
    decreases |s|
  {
    if |s| > 0 && ws(s[|s| - 1]) {
      j := TrimRightShape(s[..|s| - 1], ws);
      assert s[..|s| - 1][..j] == s[..j];
    } else {
      j := |s|;
    }
  }

  /**
   * `Trim` keeps a contiguous middle part of `s`: everything removed before and
   * after it satisfies `ws`, and the part kept neither starts nor ends with such a
   * character. This is the meaning of Python's `strip()` and JavaScript's `trim()`.
   */
  lemma {:induction false} TrimShape(s: string, ws: char -> bool) returns (i: nat, j: nat)
    ensures i <= j <= |s| && Trim(s, ws) == s[i..j]
    ensures forall k :: 0 <= k < i ==> ws(s[k])
    ensures forall k :: j <= k < |s| ==> ws(s[k])
    ensures i < j ==> !ws(s[i]) && !ws(s[j - 1])
  {
    i := TrimLeftShape(s, ws);
    var t := s[i..];
    var j' := TrimRightShape(t, ws);
    j := i + j';
    assert t[..j'] == s[i..j];
    forall k | j <= k < |s| ensures ws(s[k]) {
      assert s[k] == t[k - i];
    }
    if i < j {
      assert s[j - 1] == t[j' - 1];
    }
  }

  /** The result of `Trim` never starts or ends with a stripped character. */
  lemma {:induction false} TrimIsTrimmed(s: string, ws: char -> bool)
    ensures TrimmedBy(Trim(s, ws), ws)
    ensures |Trim(s, ws)| <= |s|
  {
    var i, j := TrimShape(s, ws);
  }

  // ---------------------------------------------------------------------
  // Case
  // ---------------------------------------------------------------------

  function LowerChar(c: char): char {
    if 'A' <= c <= 'Z' then (c as int + 32) as char else c
  }

  /** `str.lower()` restricted to ASCII letters. */
  function Lower(s: string): string {
    seq(|s|, i requires 0 <= i < |s| => LowerChar(s[i]))
  }

  predicate HasNoUpper(s: string) {
    forall i :: 0 <= i < |s| ==> !('A' <= s[i] <= 'Z')
  }

  // ---------------------------------------------------------------------
  // Occurrences and search
  // ---------------------------------------------------------------------

  predicate StartsWith(s: string, p: string) {
    |p| <= |s| && s[..|p|] == p
  }

  predicate EndsWith(s: string, p: string) {
    |p| <= |s| && s[|s| - |p|..] == p
  }

  /** `p` occurs in `s` starting at index `i`. */
  predicate OccursAt(s: string, p: string, i: int) {
    0 <= i && i + |p| <= |s| && s[i..i + |p|] == p
  }

  /** Python's `p in s` and JavaScript's `s.includes(p)`. */
  predicate Contains(s: string, p: string) {
    exists i | 0 <= i <= |s| :: OccursAt(s, p, i)
  }

  /** The first index at or after `from` where `p` occurs in `s` (`str.find`). */
  function FindFrom(s: string, p: string, from: nat): (r: Option<nat>)
    ensures r.Some? ==> from <= r.value && OccursAt(s, p, r.value)
    ensures forall k :: from <= k && (r.None? || k < r.value) ==> !OccursAt(s, p, k)
    decreases |s| - from
  {
    if from + |p| > |s| then None
    else if s[from..from + |p|] == p then Some(from)
    else FindFrom(s, p, from + 1)
  }

  /** The last index at or after `from` where `p` occurs in `s` (`str.rfind`). */
  function FindLast(s: string, p: string, from: nat): (r: Option<nat>)
    ensures r.Some? ==> from <= r.value && OccursAt(s, p, r.value)
    ensures forall k :: from <= k && (r.None? || r.value < k) ==> !OccursAt(s, p, k)
    decreases |s| - from
  {
    if from + |p| > |s| then None
    else match FindLast(s, p, from + 1)
      case Some(k) => Some(k)
      case None => if s[from..from + |p|] == p then Some(from) else None
  }

  lemma {:induction false} FindFromNoneIffAbsent(s: string, p: string)
    ensures FindFrom(s, p, 0).None? <==> !Contains(s, p)
  {
    if FindFrom(s, p, 0).Some? {
      assert OccursAt(s, p, FindFrom(s, p, 0).value);
    }
  }

  /** An occurrence of `x` at `b` shows up in `s[lo..hi]` when it lies inside that slice. */
  lemma {:induction false} OccursInSlice(s: string, x: string, b: int, lo: int, hi: int)
    requires OccursAt(s, x, b) && 0 <= lo <= b && b + |x| <= hi <= |s|
    ensures OccursAt(s[lo..hi], x, b - lo)
  {
    var t := s[lo..hi];
    forall k | 0 <= k < |x| ensures t[b - lo + k] == x[k] {
      assert s[b..b + |x|][k] == x[k];
    }
    assert t[b - lo..b - lo + |x|] == x;
  }

  /** An occurrence inside a slice is an occurrence in the whole string. */
  lemma {:induction false} OccursFromSlice(s: string, x: string, b: int, lo: int, hi: int)
    requires 0 <= lo <= hi <= |s| && OccursAt(s[lo..hi], x, b)
    ensures OccursAt(s, x, b + lo)
  {
    var t := s[lo..hi];
    forall k | 0 <= k < |x| ensures s[b + lo + k] == x[k] {
      assert t[b..b + |x|][k] == x[k];
    }
    assert s[b + lo..b + lo + |x|] == x;
  }

  /** A string that holds a character absent from `x` does not occur inside `x`. */
  lemma {:induction false} ForeignCharNotContained(x: string, p: string, k: nat)
    requires k < |p| && p[k] !in x
    ensures !Contains(x, p)
  {
    forall i | 0 <= i <= |x| ensures !OccursAt(x, p, i) {
      if i + |p| <= |x| {
        assert x[i..i + |p|][k] == x[i + k];
      }
    }
  }

  // ---------------------------------------------------------------------
  // Literal replace-all, split and join
  // ---------------------------------------------------------------------

  /**
   * Replaces every occurrence of `p`, scanning left to right without overlaps,
   * like Python's `str.replace(p, n)` and JavaScript's `replace` with a global
   * literal pattern.
   */
  function ReplaceAll(s: string, p: string, n: string): string
    requires |p| > 0
    decreases |s|
  {
    match FindFrom(s, p, 0)
    case None => s
    case Some(i) => s[..i] + n + ReplaceAll(s[i + |p|..], p, n)
  }

  /** The pieces of `s` between the left-to-right, non-overlapping occurrences of `p`. */
  function Split(s: string, p: string): (pieces: seq<string>)
    requires |p| > 0
    ensures |pieces| >= 1
    decreases |s|
  {
    match FindFrom(s, p, 0)
    case None => [s]
    case Some(i) => [s[..i]] + Split(s[i + |p|..], p)
  }

  /** The pieces glued together with `sep` between neighbours (`sep.join(pieces)`). */
  function Join(pieces: seq<string>, sep: string): string
    decreases |pieces|
  {
    if |pieces| == 0 then ""
    else if |pieces| == 1 then pieces[0]
    else pieces[0] + sep + Join(pieces[1..], sep)
  }

  lemma {:induction false} Reassemble(s: string, i: int, j: int)
    requires 0 <= i <= j <= |s|
    ensures s == s[..i] + s[i..j] + s[j..]
  {
    assert s[i..] == s[i..j] + s[j..];
  }

  lemma {:induction false} JoinCons(a: string, tail: seq<string>, sep: string)
    requires |tail| >= 1
    ensures Join([a] + tail, sep) == a + sep + Join(tail, sep)
  {
    assert ([a] + tail)[1..] == tail;
  }

  /** Gluing the pieces back with `p` gives the original string. */
  lemma {:induction false} SplitJoin(s: string, p: string)
    requires |p| > 0
    ensures Join(Split(s, p), p) == s
    decreases |s|
  {
    var r := FindFrom(s, p, 0);
    if r.Some? {
      var i := r.value;
      var rest := s[i + |p|..];
      assert Split(s, p) == [s[..i]] + Split(rest, p);
      SplitJoin(rest, p);
      JoinCons(s[..i], Split(rest, p), p);
      Reassemble(s, i, i + |p|);
    }
  }

  /** No piece of a split contains the separator. */
  lemma {:induction false} SplitPiecesFree(s: string, p: string)
    requires |p| > 0
    ensures forall q :: q in Split(s, p) ==> !Contains(q, p)
    decreases |s|
  {
    match FindFrom(s, p, 0)
    case None =>
    case Some(i) =>
      SplitPiecesFree(s[i + |p|..], p);
      if Contains(s[..i], p) {
        var k :| OccursAt(s[..i], p, k);
        OccursFromSlice(s, p, k, 0, i);
        assert false;
      }
  }

  /** One step of `ReplaceAll` at the first occurrence. */
  lemma {:induction false} ReplaceStep(s: string, p: string, n: string, i: nat)
    requires |p| > 0 && FindFrom(s, p, 0) == Some(i)
    ensures i + |p| <= |s| && ReplaceAll(s, p, n) == s[..i] + n + ReplaceAll(s[i + |p|..], p, n)
  {
  }

  /** One step of `Split` at the first occurrence. */
  lemma {:induction false} SplitStep(s: string, p: string, i: nat)
    requires |p| > 0 && FindFrom(s, p, 0) == Some(i)
    ensures i + |p| <= |s| && |Split(s, p)| > 1
    ensures Split(s, p)[0] == s[..i] && Split(s, p)[1..] == Split(s[i + |p|..], p)
  {
  }

  lemma {:induction false} ReplaceAllIsJoin(s: string, p: string, n: string)
    requires |p| > 0
    ensures ReplaceAll(s, p, n) == Join(Split(s, p), n)
    decreases |s|
  {
    if FindFrom(s, p, 0).Some? {
      var i := FindFrom(s, p, 0).value;
      ReplaceStep(s, p, n, i);
      SplitStep(s, p, i);
      ReplaceAllIsJoin(s[i + |p|..], p, n);
    }
  }

  /** Replacing a string by itself changes nothing. */
  lemma {:induction false} ReplaceAllSelf(s: string, p: string)
    requires |p| > 0
    ensures ReplaceAll(s, p, p) == s
  {
    ReplaceAllIsJoin(s, p, p);
    SplitJoin(s, p);
  }

  /** The pattern itself is replaced as a whole. */
  lemma {:induction false} ReplaceWhole(p: string, n: string)
    requires |p| > 0
    ensures ReplaceAll(p, p, n) == n
  {
    assert p[0..|p|] == p;
    assert FindFrom(p, p, 0) == Some(0);
    assert p[|p|..] == "";
  }

  /** A string that does not contain the pattern comes back unchanged. */
  lemma {:induction false} ReplaceAllAbsent(s: string, p: string, n: string)
    requires |p| > 0 && !Contains(s, p)
    ensures ReplaceAll(s, p, n) == s
  {
    FindFromNoneIffAbsent(s, p);
  }

  /**
   * An occurrence of `x` survives replacing `p` when no occurrence of `p` can
   * overlap it: `p` holds neither the first nor the last character of `x` and
   * does not lie inside `x`.
   */
  lemma {:induction false} ReplaceAllKeeps(s: string, p: string, n: string, x: string, b: int)
    requires |p| > 0 && |x| > 0 && OccursAt(s, x, b)
    requires x[0] !in p && x[|x| - 1] !in p && !Contains(x, p)
    ensures Contains(ReplaceAll(s, p, n), x)
    decreases |s|
  {
    var f := FindFrom(s, p, 0);
    if f.Some? {
      var i := f.value;
      var rest := s[i + |p|..];
      NoOverlap(s, p, x, i, b);
      if b + |x| <= i {
        KeepsBefore(s, p, n, x, b, i);
      } else {
        OccursInSlice(s, x, b, i + |p|, |s|);
        ReplaceAllKeeps(rest, p, n, x, b - i - |p|);
        KeepsAfter(s, p, n, x, i);
      }
    }
  }

  lemma {:induction false} KeepsBefore(s: string, p: string, n: string, x: string, b: int, i: int)
    requires |p| > 0 && FindFrom(s, p, 0) == Some(i)
    requires OccursAt(s, x, b) && b + |x| <= i
    ensures Contains(ReplaceAll(s, p, n), x)
  {
    var r := ReplaceAll(s, p, n);
    assert r == s[..i] + n + ReplaceAll(s[i + |p|..], p, n);
    OccursInSlice(s, x, b, 0, i);
    assert r[..i] == s[..i];
    OccursFromSlice(r, x, b, 0, i);
  }

  lemma {:induction false} KeepsAfter(s: string, p: string, n: string, x: string, i: int)
    requires |p| > 0 && FindFrom(s, p, 0) == Some(i)
    requires Contains(ReplaceAll(s[i + |p|..], p, n), x)
    ensures Contains(ReplaceAll(s, p, n), x)
  {
    var tail := ReplaceAll(s[i + |p|..], p, n);
    var r := ReplaceAll(s, p, n);
    assert r == s[..i] + n + tail;
    var c :| 0 <= c <= |tail| && OccursAt(tail, x, c);
    var lo := i + |n|;
    assert r[lo..|r|] == tail;
    OccursFromSlice(r, x, c, lo, |r|);
  }

  /** Occurrences of `p` and `x` that satisfy the conditions of `ReplaceAllKeeps` never overlap. */
  lemma {:induction false} NoOverlap(s: string, p: string, x: string, i: int, b: int)
    requires |p| > 0 && |x| > 0 && OccursAt(s, x, b) && OccursAt(s, p, i)
    requires x[0] !in p && x[|x| - 1] !in p && !Contains(x, p)
    ensures b + |x| <= i || i + |p| <= b
  {
    if b < i < b + |x| {
      if i + |p| < b + |x| {
        forall t | 0 <= t < |p| ensures x[i - b + t] == p[t] {
          assert s[b..b + |x|][i - b + t] == s[i + t] == s[i..i + |p|][t];
        }
        assert x[i - b..i - b + |p|] == p;
        assert OccursAt(x, p, i - b);
      }
    }
  }

  /** A one-character string occurs exactly where that character stands. */
  lemma {:induction false} OccursChar(s: string, c: char, k: int)
    ensures OccursAt(s, [c], k) <==> 0 <= k < |s| && s[k] == c
  {
    if 0 <= k < |s| {
      assert s[k..k + 1] == [s[k]];
    }
  }

  /** Splitting a string joined with a single character that none of the parts holds gives the parts back. */
  lemma {:induction false} SplitJoinChar(parts: seq<string>, c: char)
    requires |parts| >= 1
    requires forall q :: q in parts ==> c !in q
    ensures Split(Join(parts, [c]), [c]) == parts
    decreases |parts|
  {
    var s := Join(parts, [c]);
    var a := parts[0];
    var r := FindFrom(s, [c], 0);
    assert c !in a by { assert a in parts; }
    if |parts| == 1 {
      assert s == a;
      if r.Some? {
        OccursChar(s, c, r.value);
        assert false;
      }
      assert parts == [a];
    } else {
      var rest := Join(parts[1..], [c]);
      assert s == a + [c] + rest;
      OccursChar(s, c, |a|);
      var k := r.value;
      OccursChar(s, c, k);
      assert k == |a|;
      assert s[..k] == a;
      assert s[k + 1..] == rest;
      assert Split(s, [c]) == [a] + Split(rest, [c]);
      SplitJoinChar(parts[1..], c);
      assert parts == [a] + parts[1..];
    }
  }

  // ---------------------------------------------------------------------
  // Numbers
  // ---------------------------------------------------------------------

  function DigitChar(d: nat): char
    requires d < 10
  {
    "0123456789"[d]
  }

  /** The decimal numeral of `n`, as JavaScript prints an index in a template literal. */
  function Decimal(n: nat): string
    decreases n
  {
    if n < 10 then [DigitChar(n)] else Decimal(n / 10) + [DigitChar(n % 10)]
  }

  // ---------------------------------------------------------------------
  // An ordered table of literal replacements
  // ---------------------------------------------------------------------

  /** Every pattern of a replacement table is non-empty. */
  predicate Patterns(pairs: seq<(string, string)>) {
    forall k :: 0 <= k < |pairs| ==> |pairs[k].0| > 0
  }

  /** Applies the replacements of `pairs` one after the other, each to every occurrence of its pattern. */
  function ApplyAll(s: string, pairs: seq<(string, string)>): string
    requires Patterns(pairs)
    decreases |pairs|
  {
    if pairs == [] then s
    else
      var last := pairs[|pairs| - 1];
      ReplaceAll(ApplyAll(s, pairs[..|pairs| - 1]), last.0, last.1)
  }

  /** The first replacement runs first: the rest of the table then works on its output. */
  lemma {:induction false} ApplyAllCons(s: string, pairs: seq<(string, string)>)
    requires Patterns(pairs) && |pairs| > 0
    ensures ApplyAll(s, pairs) == ApplyAll(ReplaceAll(s, pairs[0].0, pairs[0].1), pairs[1..])
    decreases |pairs|
  {
    if |pairs| > 1 {
      var init := pairs[..|pairs| - 1];
      ApplyAllCons(s, init);
      assert init[1..] == pairs[1..][..|pairs[1..]| - 1];
    }
  }

  /** Applying a table is applying its first `m` replacements, then the rest. */
  lemma {:induction false} ApplyAllSplit(s: string, pairs: seq<(string, string)>, m: nat)
    requires Patterns(pairs) && m <= |pairs|
    ensures ApplyAll(s, pairs) == ApplyAll(ApplyAll(s, pairs[..m]), pairs[m..])
    decreases |pairs|
  {
    if m == |pairs| {
      assert pairs[..m] == pairs;
      assert pairs[m..] == [];
    } else {
      var n := |pairs| - 1;
      ApplyAllSplit(s, pairs[..n], m);
      assert pairs[..n][..m] == pairs[..m];
      assert pairs[m..][..|pairs[m..]| - 1] == pairs[..n][m..];
    }
  }

  /** Text that holds none of the patterns comes back unchanged. */
  lemma {:induction false} ApplyAllAbsent(s: string, pairs: seq<(string, string)>)
    requires Patterns(pairs)
    requires forall k :: 0 <= k < |pairs| ==> !Contains(s, pairs[k].0)
    ensures ApplyAll(s, pairs) == s
    decreases |pairs|
  {
    if pairs != [] {
      var n := |pairs| - 1;
      ApplyAllAbsent(s, pairs[..n]);
      ReplaceAllAbsent(s, pairs[n].0, pairs[n].1);
    }
  }

  /** `x` can survive replacing `p`: `p` holds neither end character of `x` and does not lie inside `x`. */
  predicate Unharmed(x: string, p: string) {
    |x| > 0 && x[0] !in p && x[|x| - 1] !in p && !Contains(x, p)
  }

  /** A string that no pattern of the table can harm survives all the replacements. */
  lemma {:induction false} ApplyAllKeeps(s: string, pairs: seq<(string, string)>, x: string)
    requires Patterns(pairs) && Contains(s, x)
    requires forall k :: 0 <= k < |pairs| ==> Unharmed(x, pairs[k].0)
    ensures Contains(ApplyAll(s, pairs), x)
    decreases |pairs|
  {
    if pairs != [] {
      var n := |pairs| - 1;
      ApplyAllKeeps(s, pairs[..n], x);
      var t := ApplyAll(s, pairs[..n]);
      var b :| 0 <= b <= |t| && OccursAt(t, x, b);
      assert Unharmed(x, pairs[n].0);
      ReplaceAllKeeps(t, pairs[n].0, pairs[n].1, x, b);
    }
  }
}
