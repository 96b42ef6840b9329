/** The string tests the voice-command interpreter is built from: substring and
    prefix tests, ASCII lower-casing, decimal digits, and the search a
    non-global `String.prototype.match` performs for a pattern of the shape
    `(?:a1|a2|...) (C+)`, where `C` is a digit or a word character. */
module TextMatch {
  import opened Types

  /** `p` occurs in `s` starting at index `i`. */
  predicate OccursAt(s: string, p: string, i: int) {
    0 <= i && i + |p| <= |s| && s[i..i + |p|] == p
  }

  /** `s.includes(p)` */
  predicate Contains(s: string, p: string) {
    exists i | 0 <= i <= |s| - |p| :: OccursAt(s, p, i)
  }

  /** `s.startsWith(p)` */
  predicate StartsWith(s: string, p: string) {
    OccursAt(s, p, 0)
  }

  /** `s` contains `p` exactly when it is `p` with some text before and after. */
  lemma ContainsIffSplit(s: string, p: string)
    ensures Contains(s, p) <==> exists a, b :: s == a + p + b
  {
    if Contains(s, p) {
      var i :| 0 <= i <= |s| - |p| && OccursAt(s, p, i);
      assert s == s[..i] + p + s[i + |p|..];
    }
    if exists a, b :: s == a + p + b {
      var a, b :| s == a + p + b;
      OccursInConcat(a, p, b);
    }
  }

  /** `s` starts with `p` exactly when it is `p` followed by some text. */
  lemma StartsWithIffPrefix(s: string, p: string)
    ensures StartsWith(s, p) <==> exists r :: s == p + r
  {
    if StartsWith(s, p) {
      assert s == p + s[|p|..];
    }
    if exists r :: s == p + r {
      var r :| s == p + r;
      assert s[..|p|] == p;
    }
  }

  function LowerChar(c: char): char {
    if 'A' <= c <= 'Z' then (c as int - 'A' as int + 'a' as int) as char else c
  }

  /** `s.toLowerCase()` on ASCII letters. */
  function Lower(s: string): (r: string)
    ensures |r| == |s|
    ensures forall i :: 0 <= i < |s| ==> !('A' <= r[i] <= 'Z')
    ensures forall i :: 0 <= i < |s| && !('A' <= s[i] <= 'Z') ==> r[i] == s[i]
    ensures forall i :: 0 <= i < |s| && 'A' <= s[i] <= 'Z' ==> r[i] as int == s[i] as int + 32
  {
    seq(|s|, i requires 0 <= i < |s| => LowerChar(s[i]))
  }

  /** Lower-casing leaves a string without upper-case letters as it is. */
  lemma LowerKeepsLowerCase(s: string)
    requires forall i :: 0 <= i < |s| ==> !('A' <= s[i] <= 'Z')
    ensures Lower(s) == s
  {
  }

  predicate IsDigit(c: char) {
    '0' <= c <= '9'
  }

  /** `\w`: ASCII letters, digits and the underscore. */
  predicate IsWordChar(c: char) {
    'a' <= c <= 'z' || 'A' <= c <= 'Z' || IsDigit(c) || c == '_'
  }

  /** The character class a pattern captures a run of: `\d` or `\w`. */
  datatype CharClass = Digit | Word

  predicate InClass(c: char, k: CharClass) {
    match k
    case Digit => IsDigit(c)
    case Word => IsWordChar(c)
  }

  /** `(?:alternatives[0]|alternatives[1]|...) (C+)` with `C` the class. */
  datatype Pattern = Pattern(alternatives: seq<string>, capture: CharClass)

  /** The greedy run `C+` takes starting at index `j`: the longest stretch of
      class characters there. */
  function Run(s: string, j: nat, k: CharClass): (r: string)
    requires j <= |s|
    ensures j + |r| <= |s| && r == s[j..j + |r|]
    ensures forall c :: c in r ==> InClass(c, k)
    ensures j + |r| == |s| || !InClass(s[j + |r|], k)
    decreases |s| - j
  {
    if j < |s| && InClass(s[j], k) then [s[j]] + Run(s, j + 1, k) else []
  }

  /** Alternative `a` matches at index `i`: it occurs there followed by a
      space, and a class character comes right after the space. */
  predicate AltMatches(s: string, i: nat, a: string, k: CharClass) {
    OccursAt(s, a + " ", i) && i + |a| + 1 < |s| && InClass(s[i + |a| + 1], k)
  }

  /** What the pattern captures when the match starts at index `i`, trying the
      alternatives in order: the run after the first alternative that matches
      there. `MatchAltsAtNone` and `MatchAltsAtFirst` characterise it. */
  function MatchAltsAt(s: string, i: nat, alts: seq<string>, k: CharClass): (r: Option<string>)
    ensures r.Some? ==> i < |s| && |r.value| > 0 && forall c :: c in r.value ==> InClass(c, k)
    decreases |alts|
  {
    if alts == [] then None
    else if AltMatches(s, i, alts[0], k) then Some(Run(s, i + |alts[0]| + 1, k))
    else MatchAltsAt(s, i, alts[1..], k)
  }

  /** There is no capture at `i` exactly when no alternative matches there. */
  lemma {:induction false} MatchAltsAtNone(s: string, i: nat, alts: seq<string>, k: CharClass)
    ensures MatchAltsAt(s, i, alts, k).None? <==> forall n :: 0 <= n < |alts| ==> !AltMatches(s, i, alts[n], k)
    decreases |alts|
  {
    if alts != [] && !AltMatches(s, i, alts[0], k) {
      MatchAltsAtNone(s, i, alts[1..], k);
      assert forall n :: 1 <= n < |alts| ==> alts[n] == alts[1..][n - 1];
    }
  }

  /** A capture at `i` comes from the first alternative that matches there. */
  lemma {:induction false} MatchAltsAtFirst(s: string, i: nat, alts: seq<string>, k: CharClass) returns (n: nat)
    requires MatchAltsAt(s, i, alts, k).Some?
    ensures n < |alts| && AltMatches(s, i, alts[n], k)
    ensures forall m :: 0 <= m < n ==> !AltMatches(s, i, alts[m], k)
    decreases |alts|
  {
    if AltMatches(s, i, alts[0], k) {
      n := 0;
    } else {
      var n' := MatchAltsAtFirst(s, i, alts[1..], k);
      n := n' + 1;
      assert alts[n] == alts[1..][n'];
      forall m | 0 <= m < n ensures !AltMatches(s, i, alts[m], k) {
        if m > 0 {
          assert alts[m] == alts[1..][m - 1];
        }
      }
    }
  }

  /** A capture at `i` is the run after the first alternative that matches
      there. */
  lemma MatchAltsAtSome(s: string, i: nat, alts: seq<string>, k: CharClass) returns (n: nat)
    requires MatchAltsAt(s, i, alts, k).Some?
    ensures n < |alts| && AltMatches(s, i, alts[n], k)
    ensures forall m :: 0 <= m < n ==> !AltMatches(s, i, alts[m], k)
    ensures MatchAltsAt(s, i, alts, k) == Some(Run(s, i + |alts[n]| + 1, k))
  {
    n := MatchAltsAtFirst(s, i, alts, k);
    MatchAltsAtFinds(s, i, alts, k, n);
  }

  function MatchAt(s: string, i: nat, p: Pattern): Option<string> {
    MatchAltsAt(s, i, p.alternatives, p.capture)
  }

  /** The leftmost index at or after `from` where the pattern matches. */
  function Leftmost(s: string, from: nat, p: Pattern): (r: Option<nat>)
    ensures r.Some? ==> from <= r.value < |s| && MatchAt(s, r.value, p).Some?
    ensures r.Some? ==> forall q: nat :: from <= q < r.value ==> MatchAt(s, q, p).None?
    ensures r.None? ==> forall q: nat :: from <= q < |s| ==> MatchAt(s, q, p).None?
    decreases |s| - from
  {
    if from >= |s| then None
    else if MatchAt(s, from, p).Some? then Some(from)
    else Leftmost(s, from + 1, p)
  }

  /** `s.match(re)?.[1]`: the group captured by the leftmost match, if any. */
  function Capture(s: string, p: Pattern): (r: Option<string>)
    ensures r.Some? ==> |r.value| > 0 && forall c :: c in r.value ==> InClass(c, p.capture)
  {
    match Leftmost(s, 0, p)
    case Some(j) => MatchAt(s, j, p)
    case None => None
  }

  function Pow10(n: nat): nat {
    if n == 0 then 1 else 10 * Pow10(n - 1)
  }

  /** `parseInt(digits, 10)` for a string of decimal digits: a value below
      ten to the number of digits. */
  function DecimalValue(digits: string): (r: nat)
    requires forall c :: c in digits ==> IsDigit(c)
    ensures r < Pow10(|digits|)
  {
    if digits == [] then 0
    else
      var last := digits[|digits| - 1];
      assert last in digits && IsDigit(last);
      10 * DecimalValue(digits[..|digits| - 1]) + (last as int - '0' as int)
  }

  /** Leading zeros do not change the value. */
  lemma {:induction false} DecimalLeadingZero(digits: string)
    requires forall c :: c in digits ==> IsDigit(c)
    ensures DecimalValue("0" + digits) == DecimalValue(digits)
  {
    var z := "0" + digits;
    if digits == [] {
      assert z[..0] == [];
    } else {
      var init := digits[..|digits| - 1];
      assert z[..|z| - 1] == "0" + init;
      assert z[|z| - 1] == digits[|digits| - 1];
      DecimalLeadingZero(init);
    }
  }

  /** No match starts inside `s[from..to]` when no alternative's first letter
      appears there. */
  lemma NoMatchWithin(s: string, from: nat, to: nat, p: Pattern)
    requires from <= to <= |s|
    requires forall a :: a in p.alternatives ==> |a| > 0 && a[0] !in s[from..to]
    ensures forall q: nat :: from <= q < to ==> MatchAt(s, q, p).None?
  {
    forall q: nat | from <= q < to
      ensures MatchAt(s, q, p).None?
    {
      assert s[q] == s[from..to][q - from];
      forall n | 0 <= n < |p.alternatives|
        ensures !AltMatches(s, q, p.alternatives[n], p.capture)
      {
        var a := p.alternatives[n];
        assert a in p.alternatives;
        assert s[q] != (a + " ")[0];
      }
      MatchAltsAtNone(s, q, p.alternatives, p.capture);
    }
  }

  /** The capture is the one at `j` when a match starts at `j` and none starts
      before it. */
  lemma CaptureAt(s: string, p: Pattern, j: nat)
    requires MatchAt(s, j, p).Some?
    requires forall q: nat :: q < j ==> MatchAt(s, q, p).None?
    ensures Capture(s, p) == MatchAt(s, j, p)
  {
    var r := Leftmost(s, 0, p);
    assert r == Some(j);
  }

  /** No capture when no match starts anywhere. */
  lemma NoCapture(s: string, p: Pattern)
    requires forall q: nat :: q < |s| ==> MatchAt(s, q, p).None?
    ensures Capture(s, p).None?
  {
  }

  /** The leftmost search passes over `s[from..to]` when no alternative's
      first letter appears there. */
  lemma {:induction false} SkipLetters(s: string, from: nat, to: nat, p: Pattern)
    requires from <= to <= |s|
    requires forall a :: a in p.alternatives ==> |a| > 0 && a[0] !in s[from..to]
    ensures Leftmost(s, from, p) == Leftmost(s, to, p)
    decreases (to as int) - (from as int)
  {
    if from < to {
      NoMatchWithin(s, from, to, p);
      assert MatchAt(s, from, p).None?;
      forall a | a in p.alternatives ensures |a| > 0 && a[0] !in s[from + 1..to] {
        assert s[from + 1..to] == s[from..to][1..];
      }
      SkipLetters(s, from + 1, to, p);
    }
  }

  /** The leftmost search passes over index `i` when every alternative fails
      there. */
  lemma SkipPosition(s: string, i: nat, p: Pattern)
    requires i < |s|
    requires forall a :: a in p.alternatives ==> !AltMatches(s, i, a, p.capture)
    ensures Leftmost(s, i, p) == Leftmost(s, i + 1, p)
  {
    assert forall n :: 0 <= n < |p.alternatives| ==> p.alternatives[n] in p.alternatives;
    MatchAltsAtNone(s, i, p.alternatives, p.capture);
  }

  /** `b` occurs in `a + b + r` right after `a`. */
  lemma OccursInConcat(a: string, b: string, r: string)
    ensures OccursAt(a + b + r, b, |a|)
  {
    assert (a + b + r)[|a|..|a| + |b|] == b;
  }

  /** `p` does not occur at `i` when its `k`-th letter differs from `s[i + k]`. */
  lemma Mismatch(s: string, p: string, i: nat, k: nat)
    requires k < |p| && i + k < |s| && s[i + k] != p[k]
    ensures !OccursAt(s, p, i)
  {
    assert i + |p| <= |s| ==> s[i..i + |p|][k] == s[i + k];
  }

  /** The run starting at `j` ends at `e` when `s[j..e]` is all class
      characters and `e` is the end of `s` or holds a character outside it. */
  lemma RunUntil(s: string, j: nat, e: nat, k: CharClass)
    requires j <= e <= |s|
    requires forall i :: j <= i < e ==> InClass(s[i], k)
    requires e == |s| || !InClass(s[e], k)
    ensures Run(s, j, k) == s[j..e]
  {
    var r := Run(s, j, k);
    forall i | j <= i < j + |r|
      ensures InClass(s[i], k)
    {
      assert s[i] == r[i - j];
    }
  }

  /** The first alternative matching at `i` gives the run after it. */
  lemma FirstAltMatches(s: string, i: nat, alts: seq<string>, k: CharClass)
    requires alts != [] && AltMatches(s, i, alts[0], k)
    ensures MatchAltsAt(s, i, alts, k) == Some(Run(s, i + |alts[0]| + 1, k))
  {
  }

  /** A first alternative that does not match at `i` is passed over. */
  lemma FirstAltFails(s: string, i: nat, alts: seq<string>, k: CharClass)
    requires alts != [] && !AltMatches(s, i, alts[0], k)
    ensures MatchAltsAt(s, i, alts, k) == MatchAltsAt(s, i, alts[1..], k)
  {
  }

  /** Present implies found: when the `n`-th alternative matches at `i` and
      none tried before it does, the capture there is the run after it. */
  lemma {:induction false} MatchAltsAtFinds(s: string, i: nat, alts: seq<string>, k: CharClass, n: nat)
    requires n < |alts| && AltMatches(s, i, alts[n], k)
    requires forall m :: 0 <= m < n ==> !AltMatches(s, i, alts[m], k)
    ensures MatchAltsAt(s, i, alts, k) == Some(Run(s, i + |alts[n]| + 1, k))
    decreases n
  {
    if n == 0 {
      FirstAltMatches(s, i, alts, k);
    } else {
      FirstAltFails(s, i, alts, k);
      assert alts[1..][n - 1] == alts[n];
      forall m | 0 <= m < n - 1 ensures !AltMatches(s, i, alts[1..][m], k) {
        assert alts[1..][m] == alts[m + 1];
      }
      MatchAltsAtFinds(s, i, alts[1..], k, n - 1);
    }
  }

  /** The capture of a pattern is `run` when the match with the `m`-th
      alternative, a space and `run` starts at `i`, `run` is a maximal run of
      class characters, no earlier alternative matches at `i` and no match
      starts before `i`. */
  lemma CaptureOfPhrase(s: string, p: Pattern, i: nat, m: nat, run: string)
    requires m < |p.alternatives|
    requires OccursAt(s, p.alternatives[m] + " " + run, i)
    requires |run| > 0 && forall c :: c in run ==> InClass(c, p.capture)
    requires var e := i + |p.alternatives[m]| + 1 + |run|; e == |s| || !InClass(s[e], p.capture)
    requires forall j :: 0 <= j < m ==> !AltMatches(s, i, p.alternatives[j], p.capture)
    requires forall q: nat :: q < i ==> MatchAt(s, q, p).None?
    ensures Capture(s, p) == Some(run)
  {
    PhraseRun(s, p.alternatives[m], i, run, p.capture);
    MatchAltsAtFinds(s, i, p.alternatives, p.capture, m);
    CaptureAt(s, p, i);
  }

  /** When `a`, a space and a maximal run of class characters occur at `i`,
      `a` matches there and the run after it is that run. */
  lemma PhraseRun(s: string, a: string, i: nat, run: string, k: CharClass)
    requires OccursAt(s, a + " " + run, i)
    requires |run| > 0 && forall c :: c in run ==> InClass(c, k)
    requires var e := i + |a| + 1 + |run|; e == |s| || !InClass(s[e], k)
    ensures AltMatches(s, i, a, k)
    ensures i + |a| + 1 <= |s| && Run(s, i + |a| + 1, k) == run
  {
    var j := i + |a| + 1;
    var w := a + " " + run;
    assert s[i..i + |w|] == w;
    assert s[i..j] == w[..|a| + 1] == a + " ";
    assert s[j..j + |run|] == w[|a| + 1..] == run;
    assert s[j] == run[0];
    forall x | j <= x < j + |run| ensures InClass(s[x], k) {
      assert s[x] == run[x - j];
    }
    RunUntil(s, j, j + |run|, k);
  }

  /** The capture of a command made of a prefix holding none of the
      alternatives' first letters, the `m`-th alternative, a space, a maximal
      run of class characters and the rest: that run, provided no earlier
      alternative matches right after the prefix. */
  lemma CaptureAfterPrefix(s: string, p: Pattern, prefix: string, m: nat, run: string, rest: string)
    requires m < |p.alternatives|
    requires s == prefix + p.alternatives[m] + " " + run + rest
    requires forall a :: a in p.alternatives ==> |a| > 0 && a[0] !in prefix
    requires |run| > 0 && forall c :: c in run ==> InClass(c, p.capture)
    requires rest == [] || !InClass(rest[0], p.capture)
    requires forall j :: 0 <= j < m ==> !AltMatches(s, |prefix|, p.alternatives[j], p.capture)
    ensures Capture(s, p) == Some(run)
  {
    var a := p.alternatives[m];
    var w := a + " " + run;
    assert s == prefix + w + rest;
    assert s[0..|prefix|] == prefix;
    NoMatchWithin(s, 0, |prefix|, p);
    OccursInConcat(prefix, w, rest);
    var e := |prefix| + |a| + 1 + |run|;
    assert e == |s| || s[e] == rest[0];
    CaptureOfPhrase(s, p, |prefix|, m, run);
  }
}
