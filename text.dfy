/**
 * The subset of Go's `strings` package that the core relies on, over strings
 * of Unicode scalar values. Case mapping is ASCII only.
 */
module Text {

  // ---------------------------------------------------------------- case

  predicate IsUpper(c: char) { 'A' <= c <= 'Z' }
  predicate IsLower(c: char) { 'a' <= c <= 'z' }

  /** `unicode.ToLower` restricted to ASCII letters. */
  function LowerChar(c: char): (r: char)
    ensures !IsUpper(r)
    ensures IsUpper(c) ==> IsLower(r) && r as int == c as int + 32
    ensures !IsUpper(c) ==> r == c
  {
    if IsUpper(c) then (c as int + 32) as char else c
  }

  /** `unicode.ToUpper` restricted to ASCII letters. */
  function UpperChar(c: char): (r: char)
    ensures !IsLower(r)
    ensures IsLower(c) ==> IsUpper(r) && r as int == c as int - 32
    ensures !IsLower(c) ==> r == c
  {
    if IsLower(c) then (c as int - 32) as char else c
  }

  predicate NoUpper(s: string) { forall i :: 0 <= i < |s| ==> !IsUpper(s[i]) }

  /** `strings.ToLower` (ASCII letters only). */
  function ToLower(s: string): (r: string)
    ensures |r| == |s| && NoUpper(r)
    ensures forall i :: 0 <= i < |s| ==> r[i] == LowerChar(s[i])
  {
    seq(|s|, i requires 0 <= i < |s| => LowerChar(s[i]))
  }

  /** `strings.ToUpper` (ASCII letters only). */
  function ToUpper(s: string): (r: string)
    ensures |r| == |s|
    ensures forall i :: 0 <= i < |s| ==> r[i] == UpperChar(s[i]) && !IsLower(r[i])
  {
    seq(|s|, i requires 0 <= i < |s| => UpperChar(s[i]))
  }

  lemma ToLowerOfLower(s: string)
    requires NoUpper(s)
    ensures ToLower(s) == s
  {
  }

  lemma ToLowerIdempotent(s: string)
    ensures ToLower(ToLower(s)) == ToLower(s)
  {
    ToLowerOfLower(ToLower(s));
  }

  // ---------------------------------------------------------- whitespace

  /** `unicode.IsSpace`: the six ASCII spaces, NEL, NBSP and the Unicode Z separators. */
  predicate IsSpace(c: char) {
    c == '\t' || c == '\n' || c == '\U{000B}' || c == '\U{000C}' || c == '\r' || c == ' '
    || c == '\U{0085}' || c == '\U{00A0}' || c == '\U{1680}'
    || ('\U{2000}' <= c <= '\U{200A}')
    || c == '\U{2028}' || c == '\U{2029}' || c == '\U{202F}' || c == '\U{205F}' || c == '\U{3000}'
  }

  /** The length of the leading run of white space. */
  function LeadingSpaces(s: string): (n: nat)
    ensures n <= |s| && (forall k :: 0 <= k < n ==> IsSpace(s[k])) && (n < |s| ==> !IsSpace(s[n]))
    decreases |s|
  {
    if |s| > 0 && IsSpace(s[0]) then
      var n := 1 + LeadingSpaces(s[1..]);
      assert forall k :: 1 <= k < n ==> s[k] == s[1..][k - 1];
      n
    else 0
  }

  /** The length of the trailing run of white space. */
  function TrailingSpaces(s: string): (n: nat)
    ensures n <= |s| && (forall k :: |s| - n <= k < |s| ==> IsSpace(s[k])) && (n < |s| ==> !IsSpace(s[|s| - n - 1]))
    decreases |s|
  {
    if |s| > 0 && IsSpace(s[|s| - 1]) then
      var n := 1 + TrailingSpaces(s[..|s| - 1]);
      assert forall k :: |s| - n <= k < |s| - 1 ==> s[k] == s[..|s| - 1][k];
      n
    else 0
  }

  function TrimLeft(s: string): (r: string)
    ensures |r| <= |s| && r == s[|s| - |r|..]
    ensures |r| > 0 ==> !IsSpace(r[0])
    ensures forall i :: 0 <= i < |s| - |r| ==> IsSpace(s[i])
  {
    s[LeadingSpaces(s)..]
  }

  function TrimRight(s: string): (r: string)
    ensures |r| <= |s| && r == s[..|r|]
    ensures |r| > 0 ==> !IsSpace(r[|r| - 1])
    ensures forall i :: |r| <= i < |s| ==> IsSpace(s[i])
  {
    s[..|s| - TrailingSpaces(s)]
  }

  /**
   * `strings.TrimSpace`: the result is the slice of `s` between the leading
   * and the trailing run of white space.
   */
  function TrimSpace(s: string): (r: string)
    ensures var i := |s| - |TrimLeft(s)|;
      i + |r| <= |s| && r == s[i..i + |r|]
      && (forall k :: 0 <= k < i ==> IsSpace(s[k]))
      && (forall k :: i + |r| <= k < |s| ==> IsSpace(s[k]))
    ensures |r| > 0 ==> !IsSpace(r[0]) && !IsSpace(r[|r| - 1])
  {
    var l := TrimLeft(s);
    var r := TrimRight(l);
    TrimBoth(s, l, r);
    r
  }

  /** Cutting leading white space and then trailing white space leaves a slice between the two runs. */
  lemma TrimBoth(s: string, l: string, r: string)
    requires |l| <= |s| && l == s[|s| - |l|..] && forall k :: 0 <= k < |s| - |l| ==> IsSpace(s[k])
    requires |l| > 0 ==> !IsSpace(l[0])
    requires |r| <= |l| && r == l[..|r|] && forall k :: |r| <= k < |l| ==> IsSpace(l[k])
    requires |r| > 0 ==> !IsSpace(r[|r| - 1])
    ensures var i := |s| - |l|;
      i + |r| <= |s| && r == s[i..i + |r|]
      && (forall k :: 0 <= k < i ==> IsSpace(s[k]))
      && (forall k :: i + |r| <= k < |s| ==> IsSpace(s[k]))
    ensures |r| > 0 ==> !IsSpace(r[0]) && !IsSpace(r[|r| - 1])
  {
    var i := |s| - |l|;
    assert r == s[i..i + |r|];
    forall k | i + |r| <= k < |s| ensures IsSpace(s[k]) {
      assert s[k] == l[k - i];
    }
    if |r| > 0 {
      assert r[0] == l[0];
    }
  }

  /** Trimming a string without white space changes nothing. */
  lemma TrimSpaceSolid(s: string)
    requires forall j :: 0 <= j < |s| ==> !IsSpace(s[j])
    ensures TrimSpace(s) == s
  {
    assert LeadingSpaces(s) == 0;
    assert TrailingSpaces(s) == 0;
  }

  /** A string is blank when trimming leaves nothing: it is all white space. */
  lemma BlankIffAllSpace(s: string)
    ensures TrimSpace(s) == [] <==> forall k :: 0 <= k < |s| ==> IsSpace(s[k])
  {
    var r := TrimSpace(s);
    var i := |s| - |TrimLeft(s)|;
    if r != [] {
      assert r[0] == s[i];
    }
  }

  // -------------------------------------------------------- occurrences

  predicate OccursAt(s: string, sub: string, i: int) {
    0 <= i && i + |sub| <= |s| && s[i..i + |sub|] == sub
  }

  predicate HasPrefix(s: string, p: string) { |p| <= |s| && s[..|p|] == p }

  /** `strings.TrimPrefix`. */
  function TrimPrefix(s: string, p: string): (r: string)
    ensures HasPrefix(s, p) ==> p + r == s
    ensures !HasPrefix(s, p) ==> r == s
  {
    if HasPrefix(s, p) then s[|p|..] else s
  }

  lemma OccursShift(s: string, sub: string)
    requires |s| > 0
    ensures forall j :: 1 <= j ==> (OccursAt(s, sub, j) <==> OccursAt(s[1..], sub, j - 1))
  {
    forall j | 1 <= j
      ensures OccursAt(s, sub, j) <==> OccursAt(s[1..], sub, j - 1)
    {
      if j + |sub| <= |s| {
        assert s[1..][j - 1..j - 1 + |sub|] == s[j..j + |sub|];
      }
    }
  }

  /** `strings.Index`: the leftmost occurrence of `sub`, or -1. */
  function IndexOf(s: string, sub: string): (r: int)
    ensures r == -1 || OccursAt(s, sub, r)
    ensures r >= 0 ==> forall j :: 0 <= j < r ==> !OccursAt(s, sub, j)
    ensures r == -1 ==> forall j :: !OccursAt(s, sub, j)
    decreases |s|
  {
    if HasPrefix(s, sub) then 0
    else if |s| == 0 then -1
    else
      var k := IndexOf(s[1..], sub);
      OccursShift(s, sub);
      if k == -1 then -1 else k + 1
  }

  /** `strings.Contains`. */
  predicate Contains(s: string, sub: string) { IndexOf(s, sub) >= 0 }

  lemma ContainsIff(s: string, sub: string)
    ensures Contains(s, sub) <==> exists j :: OccursAt(s, sub, j)
  {
  }

  lemma ContainsChar(s: string, c: char)
    ensures Contains(s, [c]) <==> c in s
  {
    ContainsIff(s, [c]);
    if c in s {
      var j :| 0 <= j < |s| && s[j] == c;
      assert s[j..j + 1] == [c];
      assert OccursAt(s, [c], j);
    }
    if Contains(s, [c]) {
      var j :| OccursAt(s, [c], j);
      assert s[j] == s[j..j + 1][0];
    }
  }

  /** Containment found at a known position. */
  lemma ContainsWitness(s: string, sub: string, j: int)
    requires OccursAt(s, sub, j)
    ensures Contains(s, sub)
  {
  }

  /** What a slice contains, the whole string contains. */
  lemma ContainsSlice(s: string, i: int, m: int, sub: string)
    requires 0 <= i <= m <= |s| && Contains(s[i..m], sub)
    ensures Contains(s, sub)
  {
    var j := IndexOf(s[i..m], sub);
    assert s[i..m][j..j + |sub|] == s[i + j..i + j + |sub|];
    ContainsWitness(s, sub, i + j);
  }

  /** Trimming cannot make a substring appear. */
  lemma TrimSpaceInside(s: string, sub: string)
    requires !Contains(s, sub)
    ensures !Contains(TrimSpace(s), sub)
  {
    var r := TrimSpace(s);
    var i := |s| - |TrimLeft(s)|;
    if Contains(r, sub) {
      ContainsSlice(s, i, i + |r|, sub);
    }
  }

  // ------------------------------------------------------- replacement

  /** `strings.ReplaceAll` for a non-empty pattern: leftmost, non-overlapping. */
  function ReplaceAll(s: string, pat: string, rep: string): string
    requires |pat| > 0
    decreases |s|
  {
    if |s| < |pat| then s
    else if s[..|pat|] == pat then rep + ReplaceAll(s[|pat|..], pat, rep)
    else [s[0]] + ReplaceAll(s[1..], pat, rep)
  }

  /** `strings.Replace(s, pat, rep, 1)`: only the leftmost occurrence. */
  function ReplaceFirst(s: string, pat: string, rep: string): (r: string)
    requires |pat| > 0
    ensures !Contains(s, pat) ==> r == s
    ensures Contains(s, pat) ==>
      var i := IndexOf(s, pat);
      r == s[..i] + rep + s[i + |pat|..] && |r| == |s| - |pat| + |rep|
  {
    var i := IndexOf(s, pat);
    if i < 0 then s else s[..i] + rep + s[i + |pat|..]
  }

  // ------------------------------------------------------------ splices

  /**
   * Where an occurrence in `a + mid + b` can lie: wholly in `a`, wholly in
   * `b`, or across `mid`, where its first character is one of `mid`'s or
   * `mid`'s first character is one of its own after the first.
   */
  lemma SpliceOccurrence(a: string, mid: string, b: string, x: string, j: int)
    ensures var s := a + mid + b;
      && (OccursAt(s, x, j) && j + |x| <= |a| ==> OccursAt(a, x, j))
      && (OccursAt(s, x, j) && j >= |a| + |mid| ==> OccursAt(b, x, j - |a| - |mid|))
      && (OccursAt(s, x, j) && |x| > 0 && |a| <= j < |a| + |mid| ==> x[0] in mid)
      && (OccursAt(s, x, j) && |mid| > 0 && j < |a| < j + |x| ==> mid[0] in x[1..])
  {
    var s := a + mid + b;
    if OccursAt(s, x, j) {
      if j + |x| <= |a| {
        assert s[j..j + |x|] == a[j..j + |x|];
      } else if j >= |a| + |mid| {
        assert s[j..j + |x|] == b[j - |a| - |mid|..j - |a| - |mid| + |x|];
      } else if |a| <= j {
        if |x| > 0 {
          assert x[0] == s[j] == mid[j - |a|];
        }
      } else if |mid| > 0 {
        assert x[1..][|a| - j - 1] == x[|a| - j] == s[|a|] == mid[0];
      }
    }
  }

  /** An occurrence that can neither start inside `mid` nor run into it lies wholly in `a` or wholly in `b`. */
  lemma SpliceApart(a: string, mid: string, b: string, x: string, j: int)
    requires OccursAt(a + mid + b, x, j) && |x| > 0 && |mid| > 0
    requires x[0] !in mid && mid[0] !in x[1..]
    ensures (j + |x| <= |a| && OccursAt(a, x, j)) || (j >= |a| + |mid| && OccursAt(b, x, j - |a| - |mid|))
  {
    SpliceOccurrence(a, mid, b, x, j);
  }

  /** Putting `m` in place of `s[k..k + n]` keeps an occurrence that ends before the cut or starts after it. */
  lemma SpliceKeeps(s: string, k: int, n: int, m: string, x: string, p: int)
    requires 0 <= k && 0 <= n && k + n <= |s| && OccursAt(s, x, p)
    ensures p + |x| <= k ==> OccursAt(s[..k] + m + s[k + n..], x, p)
    ensures p >= k + n ==> OccursAt(s[..k] + m + s[k + n..], x, p - n + |m|)
  {
    var t := s[..k] + m + s[k + n..];
    if p + |x| <= k {
      assert t[p..p + |x|] == s[p..p + |x|];
    }
    if p >= k + n {
      assert t[p - n + |m|..p - n + |m| + |x|] == s[p..p + |x|];
    }
  }

  /** Two occurrences starting less than the first one's length apart put the second's first character inside the first. */
  lemma Overlap(s: string, x: string, y: string, i: int, j: int)
    ensures OccursAt(s, x, i) && OccursAt(s, y, j) && i < j < i + |x| && |y| > 0 ==> y[0] in x[1..]
    ensures OccursAt(s, x, i) && OccursAt(s, y, i) && |x| <= |y| ==> x == y[..|x|]
  {
    if OccursAt(s, x, i) && OccursAt(s, y, j) && i < j < i + |x| && |y| > 0 {
      assert x[1..][j - i - 1] == x[j - i] == s[j] == y[0];
    }
    if OccursAt(s, x, i) && OccursAt(s, y, i) && |x| <= |y| {
      assert y[..|x|] == s[i..i + |x|];
    }
  }

  predicate Disjoint(a: string, b: string) { forall i, j :: 0 <= i < |a| && 0 <= j < |b| ==> a[i] != b[j] }

  lemma {:induction false} ReplaceAllNoMatch(s: string, pat: string, rep: string)
    requires |pat| > 0 && !Contains(s, pat)
    ensures ReplaceAll(s, pat, rep) == s
    decreases |s|
  {
    if |s| >= |pat| {
      assert !OccursAt(s, pat, 0);
      OccursShift(s, pat);
      ReplaceAllNoMatch(s[1..], pat, rep);
    }
  }

  /** When the pattern opens the text, the replacement opens the result. */
  lemma ReplacedHead(t: string, pat: string, rep: string)
    requires |pat| > 0
    ensures |t| >= |pat| && t[..|pat|] == pat && |rep| > 0 ==> |ReplaceAll(t, pat, rep)| > 0 && ReplaceAll(t, pat, rep)[0] == rep[0]
  {
  }

  /** Past a prefix, an occurrence in the whole is an occurrence in the rest. */
  lemma OccursAfter(pre: string, rest: string, sub: string, p: int)
    ensures p >= |pre| ==> (OccursAt(pre + rest, sub, p) <==> OccursAt(rest, sub, p - |pre|))
  {
    if p >= |pre| && p + |sub| <= |pre| + |rest| {
      assert (pre + rest)[p..p + |sub|] == rest[p - |pre|..p - |pre| + |sub|];
    }
  }

  /** An occurrence starting inside a prefix starts with a character of the prefix. */
  lemma OccursInsidePrefix(pre: string, rest: string, sub: string, p: int)
    ensures OccursAt(pre + rest, sub, p) && p < |pre| && |sub| > 0 ==> sub[0] == pre[p]
  {
    if OccursAt(pre + rest, sub, p) && p < |pre| && |sub| > 0 {
      assert sub[0] == (pre + rest)[p..p + |sub|][0];
    }
  }

  /** A text opens with `p` when its first character and the rest of it agree with `p`. */
  lemma PrefixCons(c: char, rest: string, p: string)
    ensures |p| > 0 && c == p[0] && HasPrefix(rest, p[1..]) ==> HasPrefix([c] + rest, p)
    ensures |p| > 0 && HasPrefix([c] + rest, p) ==> c == p[0] && HasPrefix(rest, p[1..])
  {
    var t := [c] + rest;
    if |p| > 0 && |p| <= |t| {
      assert t[..|p|] == [c] + rest[..|p| - 1];
      assert p == [p[0]] + p[1..];
    }
  }

  lemma DisjointTail(a: string, b: string)
    ensures Disjoint(a, b) && |a| > 0 ==> Disjoint(a[1..], b)
  {
    if Disjoint(a, b) && |a| > 0 {
      forall i, j | 0 <= i < |a| - 1 && 0 <= j < |b| ensures a[1..][i] != b[j] {
        assert a[1..][i] == a[i + 1];
      }
    }
  }

  /** A prefix made of characters that `rep` never contains survives replacement only if it was there before. */
  lemma {:induction false} PrefixBeforeReplace(t: string, pat: string, rep: string, w: string)
    requires |pat| > 0 && |rep| > 0
    ensures Disjoint(w, rep) && HasPrefix(ReplaceAll(t, pat, rep), w) ==> HasPrefix(t, w)
    decreases |t|
  {
    if |w| > 0 && |t| >= |pat| {
      if t[..|pat|] != pat {
        var rest := ReplaceAll(t[1..], pat, rep);
        assert t == [t[0]] + t[1..];
        assert ReplaceAll(t, pat, rep) == [t[0]] + rest;
        PrefixBeforeReplace(t[1..], pat, rep, w[1..]);
        DisjointTail(w, rep);
        PrefixCons(t[0], rest, w);
        PrefixCons(t[0], t[1..], w);
      } else {
        ReplacedHead(t, pat, rep);
      }
    }
  }

  /**
   * Replacing with a non-empty text that shares no character with the
   * pattern leaves no occurrence of the pattern behind.
   */
  lemma {:induction false} ReplaceAllRemoves(s: string, pat: string, rep: string)
    requires |pat| > 0 && |rep| > 0 && Disjoint(pat, rep)
    ensures !Contains(ReplaceAll(s, pat, rep), pat)
    decreases |s|
  {
    var r := ReplaceAll(s, pat, rep);
    ContainsIff(r, pat);
    if |s| >= |pat| {
      if s[..|pat|] == pat {
        var rest := ReplaceAll(s[|pat|..], pat, rep);
        ReplaceAllRemoves(s[|pat|..], pat, rep);
        ContainsIff(rest, pat);
        assert r == rep + rest;
        forall p ensures !OccursAt(r, pat, p) {
          OccursAfter(rep, rest, pat, p);
          OccursInsidePrefix(rep, rest, pat, p);
        }
      } else {
        var rest := ReplaceAll(s[1..], pat, rep);
        ReplaceAllRemoves(s[1..], pat, rep);
        ContainsIff(rest, pat);
        assert s == [s[0]] + s[1..];
        assert r == [s[0]] + rest;
        DisjointTail(pat, rep);
        PrefixBeforeReplace(s[1..], pat, rep, pat[1..]);
        PrefixCons(s[0], rest, pat);
        PrefixCons(s[0], s[1..], pat);
        forall p ensures !OccursAt(r, pat, p) {
          OccursAfter([s[0]], rest, pat, p);
        }
      }
    }
  }

  /**
   * Replacing with a non-empty text creates no new occurrence of a text
   * that shares no character with the replacement.
   */
  lemma {:induction false} ReplaceAllCreatesNothing(s: string, pat: string, rep: string, x: string)
    requires |pat| > 0 && |rep| > 0 && |x| > 0 && Disjoint(x, rep)
    requires !Contains(s, x)
    ensures !Contains(ReplaceAll(s, pat, rep), x)
    decreases |s|
  {
    var r := ReplaceAll(s, pat, rep);
    ContainsIff(r, x);
    ContainsIff(s, x);
    if |s| >= |pat| {
      if s[..|pat|] == pat {
        var tail := s[|pat|..];
        var rest := ReplaceAll(tail, pat, rep);
        assert s == s[..|pat|] + tail;
        forall j ensures !OccursAt(tail, x, j) {
          OccursAfter(s[..|pat|], tail, x, j + |pat|);
        }
        ContainsIff(tail, x);
        ReplaceAllCreatesNothing(tail, pat, rep, x);
        ContainsIff(rest, x);
        assert r == rep + rest;
        forall p ensures !OccursAt(r, x, p) {
          OccursAfter(rep, rest, x, p);
          OccursInsidePrefix(rep, rest, x, p);
        }
      } else {
        var tail := s[1..];
        var rest := ReplaceAll(tail, pat, rep);
        assert s == [s[0]] + tail;
        forall j ensures !OccursAt(tail, x, j) {
          OccursAfter([s[0]], tail, x, j + 1);
        }
        ContainsIff(tail, x);
        ReplaceAllCreatesNothing(tail, pat, rep, x);
        ContainsIff(rest, x);
        assert r == [s[0]] + rest;
        DisjointTail(x, rep);
        PrefixBeforeReplace(tail, pat, rep, x[1..]);
        PrefixCons(s[0], rest, x);
        PrefixCons(s[0], tail, x);
        forall p ensures !OccursAt(r, x, p) {
          OccursAfter([s[0]], rest, x, p);
        }
      }
    }
  }

  /** Removing every copy of one character. */
  function Without(s: string, c: char): (r: string)
    ensures c !in r
    ensures forall d :: d in r <==> d in s && d != c
  {
    if s == [] then [] else (if s[0] == c then [] else [s[0]]) + Without(s[1..], c)
  }

  lemma {:induction false} ReplaceCharByNothing(s: string, c: char)
    ensures ReplaceAll(s, [c], "") == Without(s, c)
    decreases |s|
  {
    if |s| >= 1 {
      ReplaceCharByNothing(s[1..], c);
      assert s[..1] == [s[0]];
      assert s[1..] == s[|[c]|..];
    }
  }

  lemma {:induction false} WithoutAbsent(s: string, c: char)
    requires c !in s
    ensures Without(s, c) == s
  {
    if s != [] { WithoutAbsent(s[1..], c); }
  }

  // ------------------------------------------------------ split and join

  /** `strings.Join`. */
  function Join(parts: seq<string>, sep: string): string
  {
    if |parts| == 0 then ""
    else if |parts| == 1 then parts[0]
    else parts[0] + sep + Join(parts[1..], sep)
  }

  /** `strings.Split` for a non-empty separator. */
  function Split(s: string, sep: string): (parts: seq<string>)
    requires |sep| > 0
    ensures |parts| >= 1
    decreases |s|
  {
    var i := IndexOf(s, sep);
    if i < 0 then [s] else [s[..i]] + Split(s[i + |sep|..], sep)
  }

  /** One step of `Split`: the text before the first separator, then the split of what follows it. */
  lemma SplitStep(s: string, sep: string, i: int)
    requires |sep| > 0 && i == IndexOf(s, sep) && i >= 0
    ensures Split(s, sep) == [s[..i]] + Split(s[i + |sep|..], sep)
  {
  }

  /** Joining a part in front of a non-empty list puts one separator between it and the rest. */
  lemma JoinCons(h: string, tail: seq<string>, sep: string)
    requires |tail| >= 1
    ensures Join([h] + tail, sep) == h + sep + Join(tail, sep)
  {
    assert ([h] + tail)[1..] == tail;
  }

  /** A string is its prefix, a middle slice and its suffix put back together. */
  lemma Recompose(s: string, i: int, n: int)
    requires 0 <= i && 0 <= n && i + n <= |s|
    ensures s == s[..i] + s[i..i + n] + s[i + n..]
  {
  }

  /** Splitting and joining back with the same separator gives the input. */
  lemma {:induction false} JoinSplit(s: string, sep: string)
    requires |sep| > 0
    ensures Join(Split(s, sep), sep) == s
    decreases |s|
  {
    var i := IndexOf(s, sep);
    if i >= 0 {
      var rest := s[i + |sep|..];
      var tail := Split(rest, sep);
      JoinSplit(rest, sep);
      SplitStep(s, sep, i);
      JoinCons(s[..i], tail, sep);
      Recompose(s, i, |sep|);
    }
  }

  /** No part of a split contains the separator. */
  lemma {:induction false} SplitPartsFree(s: string, sep: string)
    requires |sep| > 0
    ensures forall k :: 0 <= k < |Split(s, sep)| ==> !Contains(Split(s, sep)[k], sep)
    decreases |s|
  {
    var i := IndexOf(s, sep);
    if i < 0 {
      ContainsIff(s, sep);
    } else {
      var rest := s[i + |sep|..];
      var tail := Split(rest, sep);
      SplitPartsFree(rest, sep);
      forall j | 0 <= j ensures !OccursAt(s[..i], sep, j) {
        if j + |sep| <= i {
          assert s[..i][j..j + |sep|] == s[j..j + |sep|];
          assert !OccursAt(s, sep, j);
        }
      }
      ContainsIff(s[..i], sep);
      SplitStep(s, sep, i);
    }
  }

  /** The first part of a split is the text before the first separator. */
  lemma SplitHead(s: string, sep: string)
    requires |sep| > 0
    ensures Split(s, sep)[0] == if Contains(s, sep) then s[..IndexOf(s, sep)] else s
  {
  }

  /** A split has a second part exactly when the separator occurs. */
  lemma SplitMany(s: string, sep: string)
    requires |sep| > 0
    ensures |Split(s, sep)| >= 2 <==> Contains(s, sep)
  {
    var i := IndexOf(s, sep);
    if i >= 0 { SplitStep(s, sep, i); }
  }

  /** The last part of a split is a suffix of the input. */
  lemma {:induction false} SplitLastSuffix(s: string, sep: string)
    requires |sep| > 0
    ensures var last := Split(s, sep)[|Split(s, sep)| - 1];
      |last| <= |s| && s[|s| - |last|..] == last
    decreases |s|
  {
    var i := IndexOf(s, sep);
    if i >= 0 {
      var rest := s[i + |sep|..];
      SplitStep(s, sep, i);
      SplitLastSuffix(rest, sep);
      var tail := Split(rest, sep);
      var last := tail[|tail| - 1];
      assert Split(s, sep)[|Split(s, sep)| - 1] == last;
      assert s[|s| - |last|..] == rest[|rest| - |last|..];
    }
  }

  /** Joining at least two parts ends with a separator and the last part. */
  lemma {:induction false} JoinLast(parts: seq<string>, sep: string)
    requires |parts| >= 2
    ensures Join(parts, sep) == Join(parts[..|parts| - 1], sep) + sep + parts[|parts| - 1]
    decreases |parts|
  {
    var init := parts[..|parts| - 1];
    if |parts| > 2 {
      var tail := parts[1..];
      JoinLast(tail, sep);
      assert tail[..|tail| - 1] == init[1..];
      assert Join(init, sep) == init[0] + sep + Join(init[1..], sep);
    } else {
      assert init == [parts[0]];
      assert parts[1..] == [parts[1]];
    }
  }

  /** `strings.Fields`: the maximal runs of non-space characters. */
  function Fields(s: string): seq<string>
    decreases |s|
  {
    var t := TrimLeft(s);
    if |t| == 0 then []
    else
      var n := RunLength(t);
      [t[..n]] + Fields(t[n..])
  }

  predicate Solid(f: string) { |f| > 0 && forall j :: 0 <= j < |f| ==> !IsSpace(f[j]) }

  /** Every field is non-empty and free of white space. */
  lemma {:induction false} FieldsSolid(s: string)
    ensures forall f :: f in Fields(s) ==> Solid(f)
    decreases |s|
  {
    var t := TrimLeft(s);
    if |t| != 0 {
      var n := RunLength(t);
      var f, rest := t[..n], t[n..];
      FieldsSolid(rest);
      assert Solid(f);
      assert Fields(s) == [f] + Fields(rest);
    }
  }

  /** Length of the leading run of non-space characters. */
  function RunLength(s: string): (n: nat)
    ensures n <= |s| && (n < |s| ==> IsSpace(s[n]))
    ensures forall j :: 0 <= j < n ==> !IsSpace(s[j])
    ensures |s| > 0 && !IsSpace(s[0]) ==> n > 0
  {
    if |s| == 0 || IsSpace(s[0]) then 0 else 1 + RunLength(s[1..])
  }

  /** The non-space characters of a string, in order. */
  function NonSpace(s: string): string
  {
    if s == [] then [] else (if IsSpace(s[0]) then [] else [s[0]]) + NonSpace(s[1..])
  }

  function Concat(fs: seq<string>): string
  {
    if fs == [] then [] else fs[0] + Concat(fs[1..])
  }

  lemma {:induction false} NonSpaceAppend(a: string, b: string)
    ensures NonSpace(a + b) == NonSpace(a) + NonSpace(b)
  {
    if a != [] {
      assert (a + b)[0] == a[0];
      assert (a + b)[1..] == a[1..] + b;
      NonSpaceAppend(a[1..], b);
    } else {
      assert a + b == b;
    }
  }

  lemma {:induction false} NonSpaceOfSpaces(s: string)
    requires forall j :: 0 <= j < |s| ==> IsSpace(s[j])
    ensures NonSpace(s) == []
  {
    if s != [] { NonSpaceOfSpaces(s[1..]); }
  }

  lemma {:induction false} NonSpaceOfSolid(s: string)
    requires forall j :: 0 <= j < |s| ==> !IsSpace(s[j])
    ensures NonSpace(s) == s
  {
    if s != [] { NonSpaceOfSolid(s[1..]); }
  }

  lemma NonSpaceTrimLeft(s: string)
    ensures NonSpace(TrimLeft(s)) == NonSpace(s)
  {
    var t := TrimLeft(s);
    var lead := s[..|s| - |t|];
    assert s == lead + t;
    NonSpaceAppend(lead, t);
    NonSpaceOfSpaces(lead);
  }

  lemma ConcatCons(f: string, tail: seq<string>)
    ensures Concat([f] + tail) == f + Concat(tail)
  {
    assert ([f] + tail)[1..] == tail;
  }

  /** The fields, put together, are exactly the non-space characters of the input. */
  lemma {:induction false} FieldsCover(s: string)
    ensures Concat(Fields(s)) == NonSpace(s)
    decreases |s|
  {
    NonSpaceTrimLeft(s);
    var t := TrimLeft(s);
    if |t| != 0 {
      var n := RunLength(t);
      var f, rest := t[..n], t[n..];
      assert t == f + rest;
      NonSpaceAppend(f, rest);
      NonSpaceOfSolid(f);
      FieldsCover(rest);
      ConcatCons(f, Fields(rest));
    }
  }

  lemma {:induction false} FieldsOfBlank(s: string)
    requires forall j :: 0 <= j < |s| ==> IsSpace(s[j])
    ensures Fields(s) == []
  {
    var t := TrimLeft(s);
  }

  /** No character of `s` is white space (the empty string included). */
  predicate NoSpace(s: string) { forall j :: 0 <= j < |s| ==> !IsSpace(s[j]) }

  /** A leading run of non-space characters ends at the first space. */
  lemma RunUpTo(x: string, rest: string)
    requires Solid(x)
    ensures TrimLeft(x + " " + rest) == x + " " + rest
    ensures RunLength(x + " " + rest) == |x|
  {
    var s := x + " " + rest;
    assert forall j :: 0 <= j < |x| ==> s[j] == x[j];
    assert s[|x|] == ' ';
  }

  /** A solid field followed by a space is the first field; the fields of the rest follow. */
  lemma FieldsCons(x: string, rest: string)
    requires Solid(x)
    ensures Fields(x + " " + rest) == [x] + Fields(rest)
  {
    var s := x + " " + rest;
    RunUpTo(x, rest);
    assert s[..|x|] == x;
    assert s[|x|..] == " " + rest;
    assert (" " + rest)[1..] == rest;
    assert TrimLeft(" " + rest) == TrimLeft(rest);
  }

  /** A solid string is its only field. */
  lemma FieldsSingle(x: string)
    requires Solid(x)
    ensures Fields(x) == [x]
  {
    assert !IsSpace(x[0]);
    var n := RunLength(x);
    assert TrimLeft(x) == x;
    assert x[..n] == x;
    assert Fields(x[n..]) == [];
  }

  /** Words joined by single spaces split back into the same words. */
  lemma {:induction false} FieldsJoin(parts: seq<string>)
    requires forall k :: 0 <= k < |parts| ==> Solid(parts[k])
    ensures Fields(Join(parts, " ")) == parts
    decreases |parts|
  {
    if |parts| == 1 {
      FieldsSingle(parts[0]);
    } else if |parts| > 1 {
      FieldsJoin(parts[1..]);
      FieldsCons(parts[0], Join(parts[1..], " "));
    }
  }
}
