/**
 * The `Deduplicator` of the federated search: the normalised keys it
 * compares and the first-wins loop over a `seen` set.
 */
module Dedup {
  import opened Text
  import opened Domain

  predicate IsNameSeparator(c: char) { c == ' ' || c == '.' || c == '-' }

  /** `normalizeArtistName`: lowercase, then drop every space, `.` and `-`. */
  function NormalizeArtistName(name: string): string
  {
    ReplaceAll(ReplaceAll(ReplaceAll(ToLower(name), " ", ""), ".", ""), "-", "")
  }

  lemma NormalizeAsWithout(name: string)
    ensures NormalizeArtistName(name) == Without(Without(Without(ToLower(name), ' '), '.'), '-')
  {
    var a := ToLower(name);
    ReplaceCharByNothing(a, ' ');
    var b := Without(a, ' ');
    ReplaceCharByNothing(b, '.');
    var c := Without(b, '.');
    ReplaceCharByNothing(c, '-');
  }

  /** The normalised name holds exactly the lowercased name's characters other than the separators. */
  lemma NormalizeArtistNameChars(name: string)
    ensures forall c :: c in NormalizeArtistName(name) <==> c in ToLower(name) && !IsNameSeparator(c)
  {
    NormalizeAsWithout(name);
  }

  lemma NoUpperByChars(s: string)
    requires forall c :: c in s ==> !IsUpper(c)
    ensures NoUpper(s)
  {
    forall i | 0 <= i < |s| ensures !IsUpper(s[i]) {
      assert s[i] in s;
    }
  }

  /** A normalised name has no upper-case letter and no separator. */
  lemma NormalizedIsClean(name: string)
    ensures NoUpper(NormalizeArtistName(name))
    ensures forall c :: c in NormalizeArtistName(name) ==> !IsNameSeparator(c)
  {
    var a := ToLower(name);
    NormalizeArtistNameChars(name);
    forall c | c in NormalizeArtistName(name) ensures !IsUpper(c) {
      var i :| 0 <= i < |a| && a[i] == c;
    }
    NoUpperByChars(NormalizeArtistName(name));
  }

  /** Normalising twice is normalising once. */
  lemma NormalizeArtistNameIdempotent(name: string)
    ensures NormalizeArtistName(NormalizeArtistName(name)) == NormalizeArtistName(name)
  {
    var y := NormalizeArtistName(name);
    NormalizedIsClean(name);
    ToLowerOfLower(y);
    NormalizeAsWithout(y);
    WithoutAbsent(y, ' ');
    WithoutAbsent(y, '.');
    WithoutAbsent(y, '-');
  }

  /** `normalizeEventKey`: artist key, venue name without spaces lowercased, and the day, joined by `_`. */
  function NormalizeEventKey(e: Event): (k: string)
  {
    NormalizeArtistName(e.artistName) + "_" + ToLower(ReplaceAll(e.venue.name, " ", "")) + "_" + DayKey(e.dateTime)
  }

  /** The key ends with the event's `"20060102"` day. */
  lemma EventKeyEndsWithDay(e: Event)
    ensures |NormalizeEventKey(e)| >= 8
    ensures NormalizeEventKey(e)[|NormalizeEventKey(e)| - 8..] == DayKey(e.dateTime)
  {
  }

  /** Events on different calendar days never share a key, so neither can drop the other. */
  lemma EventKeysSeparateDays(e: Event, f: Event)
    requires e.dateTime.date != f.dateTime.date
    ensures NormalizeEventKey(e) != NormalizeEventKey(f)
  {
    EventKeyEndsWithDay(e);
    EventKeyEndsWithDay(f);
    if NormalizeEventKey(e) == NormalizeEventKey(f) {
      DayKeyInjective(e.dateTime, f.dateTime);
    }
  }

  // ------------------------------------------------------------ first wins

  function KeysOf<T(==)>(s: seq<T>, key: T -> string): set<string>
  {
    set x | x in s :: key(x)
  }

  /** The specification of the dedup loop: scan left to right, keep an item iff its key is new. */
  function KeepFirst<T(==)>(s: seq<T>, key: T -> string): seq<T>
    decreases |s|
  {
    if |s| == 0 then []
    else
      var init := s[..|s| - 1];
      var x := s[|s| - 1];
      if key(x) in KeysOf(init, key) then KeepFirst(init, key) else KeepFirst(init, key) + [x]
  }

  /** `Deduplicate*`: one pass with a `seen` set; the first item for each key wins. */
  method Deduplicate<T(==)>(items: seq<T>, key: T -> string) returns (unique: seq<T>)
    ensures unique == KeepFirst(items, key)
  {
    var seen: set<string> := {};
    unique := [];
    for i := 0 to |items|
      invariant unique == KeepFirst(items[..i], key)
      invariant seen == KeysOf(items[..i], key)
    {
      var k := key(items[i]);
      assert items[..i + 1][..i] == items[..i];
      if k !in seen {
        seen := seen + {k};
        unique := unique + [items[i]];
      }
      assert KeysOf(items[..i + 1], key) == KeysOf(items[..i], key) + {k} by {
        assert items[..i + 1] == items[..i] + [items[i]];
      }
    }
    assert items[..|items|] == items;
  }

  /** `s` can be obtained from `t` by deleting elements (order kept). */
  predicate IsSubseq<T(==)>(s: seq<T>, t: seq<T>)
    decreases |t|
  {
    if |s| == 0 then true
    else if |t| == 0 then false
    else if s[|s| - 1] == t[|t| - 1] then IsSubseq(s[..|s| - 1], t[..|t| - 1])
    else IsSubseq(s, t[..|t| - 1])
  }

  lemma {:induction false} SubseqExtend<T>(s: seq<T>, t: seq<T>, x: T)
    requires IsSubseq(s, t)
    ensures IsSubseq(s, t + [x])
    decreases |t|, 1
  {
    var u := t + [x];
    assert u[..|u| - 1] == t;
    if |s| > 0 && s[|s| - 1] == x {
      SubseqDropLast(s, t);
    }
  }

  lemma {:induction false} SubseqDropLast<T>(s: seq<T>, t: seq<T>)
    requires |s| > 0 && IsSubseq(s, t)
    ensures IsSubseq(s[..|s| - 1], t)
    decreases |t|, 0
  {
    var t' := t[..|t| - 1];
    assert t == t' + [t[|t| - 1]];
    if s[|s| - 1] == t[|t| - 1] {
      SubseqExtend(s[..|s| - 1], t', t[|t| - 1]);
    } else {
      SubseqDropLast(s, t');
      SubseqExtend(s[..|s| - 1], t', t[|t| - 1]);
    }
  }

  /** A subsequence is never longer than the sequence it is drawn from. */
  lemma {:induction false} SubseqLength<T>(s: seq<T>, t: seq<T>)
    requires IsSubseq(s, t)
    ensures |s| <= |t|
    decreases |t|
  {
    if |s| > 0 {
      if s[|s| - 1] == t[|t| - 1] {
        SubseqLength(s[..|s| - 1], t[..|t| - 1]);
      } else {
        SubseqLength(s, t[..|t| - 1]);
      }
    }
  }

  /** The survivors keep their relative order and never outnumber the input. */
  lemma {:induction false} KeepFirstSubseq<T>(s: seq<T>, key: T -> string)
    ensures IsSubseq(KeepFirst(s, key), s)
    ensures |KeepFirst(s, key)| <= |s|
    decreases |s|
  {
    if |s| > 0 {
      var init, x := s[..|s| - 1], s[|s| - 1];
      var r := KeepFirst(init, key);
      KeepFirstSubseq(init, key);
      assert s == init + [x];
      if key(x) in KeysOf(init, key) {
        SubseqExtend(r, init, x);
      } else {
        var u := r + [x];
        assert u[..|u| - 1] == r;
      }
    }
  }

  /** The survivors cover every key of the input and no other. */
  lemma {:induction false} KeepFirstKeys<T>(s: seq<T>, key: T -> string)
    ensures KeysOf(KeepFirst(s, key), key) == KeysOf(s, key)
    decreases |s|
  {
    if |s| > 0 {
      var init, x := s[..|s| - 1], s[|s| - 1];
      KeepFirstKeys(init, key);
      assert s == init + [x];
      assert KeysOf(s, key) == KeysOf(init, key) + {key(x)};
      var r := KeepFirst(init, key);
      assert KeysOf(r + [x], key) == KeysOf(r, key) + {key(x)};
    }
  }

  predicate UniqueKeys<T>(s: seq<T>, key: T -> string)
  {
    forall i, j :: 0 <= i < j < |s| ==> key(s[i]) != key(s[j])
  }

  /** No two survivors share a key. */
  lemma {:induction false} KeepFirstUnique<T>(s: seq<T>, key: T -> string)
    ensures UniqueKeys(KeepFirst(s, key), key)
    decreases |s|
  {
    if |s| > 0 {
      var init, x := s[..|s| - 1], s[|s| - 1];
      KeepFirstUnique(init, key);
      var r := KeepFirst(init, key);
      if key(x) !in KeysOf(init, key) {
        KeepFirstKeys(init, key);
        var u := r + [x];
        forall i, j | 0 <= i < j < |u| ensures key(u[i]) != key(u[j]) {
          if j == |r| {
            assert u[i] in r;
          }
        }
      }
    }
  }

  /** Position `j` holds the first item of `s` with its key. */
  predicate FirstOfKey<T>(s: seq<T>, key: T -> string, j: int)
  {
    0 <= j < |s| && forall i :: 0 <= i < j ==> key(s[i]) != key(s[j])
  }

  lemma FirstOfKeyPrefix<T>(s: seq<T>, key: T -> string, j: int)
    requires |s| > 0 && 0 <= j < |s| - 1
    ensures FirstOfKey(s, key, j) <==> FirstOfKey(s[..|s| - 1], key, j)
  {
  }

  /** Every first occurrence of a key survives. */
  lemma {:induction false} KeepFirstKeepsFirsts<T>(s: seq<T>, key: T -> string, j: int)
    requires FirstOfKey(s, key, j)
    ensures s[j] in KeepFirst(s, key)
    decreases |s|
  {
    var init, x := s[..|s| - 1], s[|s| - 1];
    var n := |init|;
    var r := KeepFirst(init, key);
    if j == n {
      forall y | y in init ensures key(y) != key(x) {
        var i :| 0 <= i < n && init[i] == y;
        assert key(s[i]) != key(s[n]);
      }
    } else {
      FirstOfKeyPrefix(s, key, j);
      KeepFirstKeepsFirsts(init, key, j);
    }
  }

  /** Every survivor is the first occurrence of its key. */
  lemma {:induction false} KeepFirstOnlyFirsts<T>(s: seq<T>, key: T -> string, y: T)
    requires y in KeepFirst(s, key)
    ensures exists j :: FirstOfKey(s, key, j) && s[j] == y
    decreases |s|
  {
    var init, x := s[..|s| - 1], s[|s| - 1];
    var n := |init|;
    var r := KeepFirst(init, key);
    if y in r {
      KeepFirstOnlyFirsts(init, key, y);
      var j :| FirstOfKey(init, key, j) && init[j] == y;
      FirstOfKeyPrefix(s, key, j);
    } else {
      assert y == x && key(x) !in KeysOf(init, key);
      forall i | 0 <= i < n ensures key(s[i]) != key(s[n]) {
        assert s[i] in init;
      }
      assert FirstOfKey(s, key, n);
    }
  }
}
