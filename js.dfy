/** JavaScript value semantics the pipeline relies on: `undefined`, truthiness,
    template-literal interpolation, `slice`, ASCII `toLowerCase`, `indexOf`,
    `replace` with a string pattern, and `split` with a one-character separator. */
module Js {

  datatype Option<+T> = None | Some(value: T)

  /** A string-valued property that may be `undefined`. */
  type JsStr = Option<string>

  /** A number-valued property that may be `undefined`. */
  type JsNum = Option<int>

  /** `if (s)` on a string property: defined and non-empty. */
  predicate Truthy(s: JsStr) {
    s.Some? && s.value != ""
  }

  /** `if (n)` on a number property: defined and non-zero. */
  predicate TruthyNum(n: JsNum) {
    n.Some? && n.value != 0
  }

  /** What `${s}` or `.concat(s)` inserts: the string, or the text "undefined". */
  function Text(s: JsStr): (r: string)
    ensures s.Some? ==> r == s.value
    ensures s.None? ==> r == "undefined"
  {
    match s
    case Some(v) => v
    case None => "undefined"
  }

  /** `s.slice(0, n)`: at most the first n characters. */
  function Slice(s: string, n: nat): (r: string)
    ensures |r| == if n <= |s| then n else |s|
    ensures r <= s
  {
    if n <= |s| then s[..n] else s
  }

  predicate StartsWith(s: string, p: string) {
    |p| <= |s| && s[..|p|] == p
  }

  predicate EndsWith(s: string, p: string) {
    |p| <= |s| && s[|s| - |p|..] == p
  }

  lemma SliceIsPrefix(s: string, p: string)
    ensures Slice(s, |p|) == p <==> StartsWith(s, p)
  {
  }

  lemma StartsWithConcat(p: string, x: string, q: string)
    requires |q| <= |p|
    ensures StartsWith(p + x, q) <==> StartsWith(p, q)
  {
    assert (p + x)[..|q|] == p[..|q|];
  }

  // ---------------------------------------------------------------- case

  function Lower(c: char): char {
    if 'A' <= c <= 'Z' then (c as int - 'A' as int + 'a' as int) as char else c
  }

  predicate IsLower(s: string) {
    forall i :: 0 <= i < |s| ==> !('A' <= s[i] <= 'Z')
  }

  lemma IsLowerConcat(a: string, b: string)
    requires IsLower(a) && IsLower(b)
    ensures IsLower(a + b)
  {
    assert forall k :: 0 <= k < |a| ==> (a + b)[k] == a[k];
    assert forall k :: |a| <= k < |a + b| ==> (a + b)[k] == b[k - |a|];
  }

  /** `s.toLowerCase()` restricted to ASCII letters. */
  function LowerStr(s: string): (r: string)
    ensures |r| == |s|
    ensures forall i :: 0 <= i < |s| ==> r[i] == Lower(s[i])
  {
    if s == [] then [] else [Lower(s[0])] + LowerStr(s[1..])
  }

  lemma LowerStrIsLower(s: string)
    ensures IsLower(LowerStr(s))
  {
  }

  lemma {:induction false} LowerStrOfLower(s: string)
    requires IsLower(s)
    ensures LowerStr(s) == s
  {
    if s != [] {
      LowerStrOfLower(s[1..]);
    }
  }

  /** Lower-casing agrees with a string that has the lower-cased character at each position. */
  lemma LowerStrPointwise(s: string, t: string)
    requires |s| == |t| && forall k :: 0 <= k < |s| ==> Lower(s[k]) == t[k]
    ensures LowerStr(s) == t
  {
  }

  // ---------------------------------------------------------------- search

  predicate OccursAt(s: string, pat: string, i: nat) {
    i + |pat| <= |s| && s[i..i + |pat|] == pat
  }

  /** `s.indexOf(pat)`: the first position at which pat occurs, if any
      (IndexOfSpec). */
  function IndexOf(s: string, pat: string): (r: Option<nat>)
    ensures r.Some? ==> r.value + |pat| <= |s|
    decreases |s|
  {
    if |pat| > |s| then None
    else if s[..|pat|] == pat then Some(0)
    else
      match IndexOf(s[1..], pat)
      case None => None
      case Some(k) => Some(k + 1)
  }

  /** IndexOf finds an occurrence, no earlier one exists, and it finds none only
      when pat occurs nowhere. */
  lemma {:induction false} IndexOfSpec(s: string, pat: string)
    ensures IndexOf(s, pat).Some? ==> OccursAt(s, pat, IndexOf(s, pat).value)
    ensures IndexOf(s, pat).Some? ==> forall j: nat :: j < IndexOf(s, pat).value ==> !OccursAt(s, pat, j)
    ensures IndexOf(s, pat).None? ==> forall j: nat :: !OccursAt(s, pat, j)
    decreases |s|
  {
    if |pat| <= |s| && s[..|pat|] != pat {
      IndexOfSpec(s[1..], pat);
      assert forall j: nat :: 0 < j ==> OccursAt(s, pat, j) == OccursAt(s[1..], pat, j - 1);
      assert !OccursAt(s, pat, 0);
    }
  }

  /** The first occurrence is the only position the specification of IndexOf allows. */
  lemma IndexOfIsFirst(s: string, pat: string, i: nat)
    requires OccursAt(s, pat, i)
    requires forall j: nat :: j < i ==> !OccursAt(s, pat, j)
    ensures IndexOf(s, pat) == Some(i)
  {
    IndexOfSpec(s, pat);
  }

  /** A pattern whose first character does not occur in s does not occur in s. */
  lemma NoFirstCharNoOccurrence(s: string, pat: string)
    requires |pat| > 0 && pat[0] !in s
    ensures IndexOf(s, pat).None?
  {
    IndexOfSpec(s, pat);
    forall j: nat ensures !OccursAt(s, pat, j) {
      if j + |pat| <= |s| {
        assert s[j..j + |pat|][0] == s[j];
      }
    }
  }

  /** `s.replace(pat, rep)` with a string pattern: only the first occurrence is
      replaced (ReplaceFirstSpec). */
  function ReplaceFirst(s: string, pat: string, rep: string): (r: string)
    ensures IndexOf(s, pat).None? ==> r == s
  {
    match IndexOf(s, pat)
    case None => s
    case Some(i) => s[..i] + rep + s[i + |pat|..]
  }

  /** Where pat first occurs, s is cut around it and rep takes its place. */
  lemma ReplaceFirstSpec(s: string, pat: string, rep: string)
    ensures IndexOf(s, pat).Some? ==>
      var i := IndexOf(s, pat).value;
      ReplaceFirst(s, pat, rep) == s[..i] + rep + s[i + |pat|..] && s == s[..i] + pat + s[i + |pat|..]
  {
    IndexOfSpec(s, pat);
    if IndexOf(s, pat).Some? {
      var i := IndexOf(s, pat).value;
      assert s[i..i + |pat|] == pat;
      assert s == s[..i] + s[i..i + |pat|] + s[i + |pat|..];
    }
  }

  /** Once the first occurrence is known, replacing it is cutting around it. */
  lemma ReplaceFirstAt(s: string, pat: string, rep: string, i: nat)
    requires IndexOf(s, pat) == Some(i)
    ensures ReplaceFirst(s, pat, rep) == s[..i] + rep + s[i + |pat|..]
  {
  }

  /** Cutting a known tail a off pre + a and appending b gives pre + b. */
  lemma SwapTail(pre: string, a: string, b: string)
    ensures (pre + a)[..|pre|] + b + (pre + a)[|pre| + |a|..] == pre + b
  {
    assert (pre + a)[..|pre|] == pre;
    assert (pre + a)[|pre| + |a|..] == [];
  }

  lemma ReplaceFirstLower(s: string, pat: string, rep: string)
    requires IsLower(s) && IsLower(rep)
    ensures IsLower(ReplaceFirst(s, pat, rep))
  {
    if IndexOf(s, pat).Some? {
      var i := IndexOf(s, pat).value;
      var a, b := s[..i], s[i + |pat|..];
      assert IsLower(a) && IsLower(b);
      IsLowerConcat(a, rep);
      IsLowerConcat(a + rep, b);
    }
  }

  lemma ReplaceFirstNoChar(s: string, pat: string, rep: string, c: char)
    requires c !in s && c !in rep
    ensures c !in ReplaceFirst(s, pat, rep)
  {
    if IndexOf(s, pat).Some? {
      var i := IndexOf(s, pat).value;
      assert c !in s[..i];
      assert c !in s[i + |pat|..];
    }
  }

  lemma LowerStrNoChar(s: string, c: char)
    requires c !in s && !('A' <= c <= 'Z') && !('a' <= c <= 'z')
    ensures c !in LowerStr(s)
  {
    assert forall k :: 0 <= k < |s| ==> LowerStr(s)[k] != c;
  }

  // ---------------------------------------------------------------- split

  /** `s.split(c)` for a one-character separator. */
  function Split(s: string, c: char): (r: seq<string>)
    ensures |r| >= 1
    ensures forall i :: 0 <= i < |r| ==> c !in r[i]
  {
    if s == [] then [""]
    else
      var rest := Split(s[1..], c);
      if s[0] == c then [""] + rest else [[s[0]] + rest[0]] + rest[1..]
  }

  /** `parts.join(c)`. */
  function Join(parts: seq<string>, c: char): string
    requires |parts| >= 1
  {
    if |parts| == 1 then parts[0] else parts[0] + [c] + Join(parts[1..], c)
  }

  /** `parts[i]`, which is `undefined` past the end. */
  function At(parts: seq<string>, i: nat): JsStr {
    if i < |parts| then Some(parts[i]) else None
  }

  lemma {:induction false} SplitJoin(s: string, c: char)
    ensures Join(Split(s, c), c) == s
  {
    if s != [] {
      SplitJoin(s[1..], c);
      var rest := Split(s[1..], c);
      if s[0] != c && |rest| > 1 {
        assert Join(rest, c) == rest[0] + [c] + Join(rest[1..], c);
        assert [[s[0]] + rest[0]] + rest[1..] == [[s[0]] + rest[0]] + rest[1..];
        assert ([[s[0]] + rest[0]] + rest[1..])[1..] == rest[1..];
      }
    }
  }

  lemma {:induction false} SplitNoSeparator(s: string, c: char)
    requires c !in s
    ensures Split(s, c) == [s]
  {
    if s != [] {
      assert s[0] in s;
      SplitNoSeparator(s[1..], c);
      assert [s[0]] + s[1..] == s;
    }
  }

  lemma {:induction false} SplitAtFirst(a: string, c: char, b: string)
    requires c !in a
    ensures Split(a + [c] + b, c) == [a] + Split(b, c)
  {
    if a == [] {
      assert a + [c] + b == [c] + b;
      assert ([c] + b)[1..] == b;
    } else {
      SplitAtFirst(a[1..], c, b);
      assert (a + [c] + b)[1..] == a[1..] + [c] + b;
      assert [a[0]] + a[1..] == a;
    }
  }

  /** seg0 and seg1 are segment 0 and segment 1 of s split on c: seg0 runs up to the
      first c (or the end), seg1 from there up to the second c (or the end), and seg1
      is undefined when s has no c. */
  ghost predicate Segments01(s: string, c: char, seg0: string, seg1: JsStr) {
    && c !in seg0
    && (seg1.None? ==> s == seg0)
    && (seg1.Some? ==>
          && c !in seg1.value
          && |seg0| + 1 + |seg1.value| <= |s|
          && s[..|seg0|] == seg0
          && s[|seg0|] == c
          && s[|seg0| + 1..|seg0| + 1 + |seg1.value|] == seg1.value
          && (|seg0| + 1 + |seg1.value| == |s| || s[|seg0| + 1 + |seg1.value|] == c))
  }

  lemma SplitSegments(s: string, c: char)
    ensures Segments01(s, c, Split(s, c)[0], At(Split(s, c), 1))
  {
    var parts := Split(s, c);
    SplitJoin(s, c);
    if |parts| > 1 {
      var tail := Join(parts[1..], c);
      assert s == parts[0] + [c] + tail;
      if |parts| > 2 {
        assert tail == parts[1] + [c] + Join(parts[2..], c);
      } else {
        assert tail == parts[1];
      }
      var p0, p1 := |parts[0]|, |parts[1]|;
      assert s[..p0] == parts[0];
      assert s[p0 + 1..p0 + 1 + p1] == tail[..p1];
    }
  }

  // ---------------------------------------------------------------- numbers

  function DigitChar(d: nat): char
    requires d < 10
  {
    "0123456789"[d]
  }

  /** `${n}` for a non-negative integer: decimal digits, no leading zero. */
  function NatToString(n: nat): (r: string)
    ensures |r| >= 1
    ensures forall i :: 0 <= i < |r| ==> '0' <= r[i] <= '9'
    ensures |r| > 1 ==> r[0] != '0'
    decreases n
  {
    if n < 10 then [DigitChar(n)] else NatToString(n / 10) + [DigitChar(n % 10)]
  }

  predicate IsDigits(s: string) {
    forall i :: 0 <= i < |s| ==> '0' <= s[i] <= '9'
  }

  /** `parseInt` of a string of decimal digits. */
  function DigitsValue(s: string): nat
    requires IsDigits(s)
  {
    if s == [] then 0 else DigitsValue(s[..|s| - 1]) * 10 + (s[|s| - 1] as int - '0' as int)
  }

  lemma {:induction false} DigitsValueOfNatToString(n: nat)
    ensures DigitsValue(NatToString(n)) == n
    decreases n
  {
    var s := NatToString(n);
    if n >= 10 {
      DigitsValueOfNatToString(n / 10);
      assert s[..|s| - 1] == NatToString(n / 10);
    }
  }
}
