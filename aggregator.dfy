/**
 * The two-source artist aggregator: Spotify and Last.fm are asked the same
 * query, and their artists are merged by exact name. Spotify's record is
 * kept; Last.fm only fills in a missing Last.fm ID or missing genres. The
 * search fails only when both sources fail.
 */
module ArtistAggregation {
  import opened Wrappers
  import opened Domain
  import opened Sequences

  /** What one client answered; `None` when that client is not configured. */
  type Answer = Option<Result<seq<Artist>>>

  /** The artists of an answer: none for a missing client or a failure. */
  function Artists(a: Answer): seq<Artist>
  {
    if a.Some? && a.value.Ok? then a.value.value else []
  }

  predicate Failed(a: Answer)
  {
    a.Some? && a.value.Err?
  }

  // ------------------------------------------------------------- gap filling

  /**
   * `r` is `a` with, at most, its Last.fm ID and genres filled in: nothing
   * else differs, and what `a` already had is kept.
   */
  predicate Refines(r: Artist, a: Artist)
  {
    && r == a.(externalIDs := r.externalIDs, genres := r.genres)
    && r.externalIDs.spotifyID == a.externalIDs.spotifyID
    && (a.externalIDs.lastFMID != "" ==> r.externalIDs.lastFMID == a.externalIDs.lastFMID)
    && (|a.genres| > 0 ==> r.genres == a.genres)
  }

  lemma RefinesTrans(r: Artist, q: Artist, a: Artist)
    requires Refines(r, q) && Refines(q, a)
    ensures Refines(r, a)
  {
  }

  /** A Last.fm record merged into a known one: it fills an empty Last.fm ID and empty genres, nothing else. */
  function Fill(existing: Artist, other: Artist): (r: Artist)
    ensures Refines(r, existing)
    ensures existing.externalIDs.lastFMID == "" ==> r.externalIDs.lastFMID == other.externalIDs.lastFMID
    ensures |existing.genres| == 0 ==> r.genres == other.genres
  {
    var withID := if existing.externalIDs.lastFMID == "" && other.externalIDs.lastFMID != ""
                  then existing.(externalIDs := existing.externalIDs.(lastFMID := other.externalIDs.lastFMID))
                  else existing;
    if |withID.genres| == 0 && |other.genres| > 0 then withID.(genres := other.genres) else withID
  }

  // ---------------------------------------------------------------- the map

  /** The Spotify loop: every artist stored under its name, a later one replacing an earlier. */
  function ByName(xs: seq<Artist>): map<string, Artist>
    decreases |xs|
  {
    if |xs| == 0 then map[]
    else ByName(xs[..|xs| - 1])[xs[|xs| - 1].name := xs[|xs| - 1]]
  }

  /** The Last.fm loop: a known name is gap-filled, a new one stored. */
  function Absorb(m: map<string, Artist>, ys: seq<Artist>): map<string, Artist>
    decreases |ys|
  {
    if |ys| == 0 then m
    else
      var prior := Absorb(m, ys[..|ys| - 1]);
      var y := ys[|ys| - 1];
      if y.name in prior then prior[y.name := Fill(prior[y.name], y)] else prior[y.name := y]
  }

  function Merged(spotify: seq<Artist>, lastfm: seq<Artist>): map<string, Artist>
  {
    Absorb(ByName(spotify), lastfm)
  }

  predicate Named(xs: seq<Artist>, n: string)
  {
    exists i :: 0 <= i < |xs| && xs[i].name == n
  }

  predicate KeyedByName(m: map<string, Artist>)
  {
    forall n :: n in m ==> m[n].name == n
  }

  /** One more record adds its name to the names of the records before it. */
  lemma NamedStep(xs: seq<Artist>)
    requires |xs| > 0
    ensures forall n :: Named(xs, n) <==> Named(xs[..|xs| - 1], n) || xs[|xs| - 1].name == n
  {
    var init := xs[..|xs| - 1];
    forall n ensures Named(xs, n) <==> Named(init, n) || xs[|xs| - 1].name == n {
      if Named(init, n) {
        var i :| 0 <= i < |init| && init[i].name == n;
        assert xs[i].name == n;
      }
      if n != xs[|xs| - 1].name && Named(xs, n) {
        var i :| 0 <= i < |xs| && xs[i].name == n;
        assert init[i].name == n;
      }
    }
  }

  /** Storing one more key adds at most one to the count of keys. */
  lemma StoreCount(m: map<string, Artist>, n: string, a: Artist)
    ensures |m[n := a].Keys| <= |m.Keys| + 1
  {
    assert m[n := a].Keys == m.Keys + {n};
  }

  /** The Spotify map holds exactly the Spotify names, each under its own name. */
  lemma {:induction false} ByNameKeys(xs: seq<Artist>)
    ensures KeyedByName(ByName(xs))
    ensures forall n :: n in ByName(xs) <==> Named(xs, n)
    ensures |ByName(xs).Keys| <= |xs|
    decreases |xs|
  {
    if |xs| != 0 {
      var k := |xs| - 1;
      ByNameKeys(xs[..k]);
      NamedStep(xs);
      StoreCount(ByName(xs[..k]), xs[k].name, xs[k]);
    }
  }

  /** `xs[i]` is the last record named `n`. */
  predicate LastNamed(xs: seq<Artist>, i: int, n: string)
  {
    0 <= i < |xs| && xs[i].name == n && forall j :: i < j < |xs| ==> xs[j].name != n
  }

  /** Each Spotify name is stored with its last record of that name. */
  lemma {:induction false} ByNameLast(xs: seq<Artist>, n: string)
    requires n in ByName(xs)
    ensures exists i :: LastNamed(xs, i, n) && xs[i] == ByName(xs)[n]
    decreases |xs|
  {
    var k := |xs| - 1;
    var init := xs[..k];
    if n != xs[k].name {
      ByNameLast(init, n);
      var i :| LastNamed(init, i, n) && init[i] == ByName(init)[n];
      assert LastNamed(xs, i, n);
    } else {
      assert LastNamed(xs, k, n);
    }
  }

  /** Absorbing keeps every name already there, adds exactly the absorbed names, and at most one per record. */
  lemma {:induction false} AbsorbKeys(m: map<string, Artist>, ys: seq<Artist>)
    requires KeyedByName(m)
    ensures KeyedByName(Absorb(m, ys))
    ensures forall n :: n in Absorb(m, ys) <==> n in m || Named(ys, n)
    ensures |Absorb(m, ys).Keys| <= |m.Keys| + |ys|
    decreases |ys|
  {
    if |ys| != 0 {
      var k := |ys| - 1;
      AbsorbKeys(m, ys[..k]);
      NamedStep(ys);
      var prior := Absorb(m, ys[..k]);
      var y := ys[k];
      StoreCount(prior, y.name, if y.name in prior then Fill(prior[y.name], y) else y);
    }
  }

  /** A record already in the map stays, at most gap-filled. */
  lemma {:induction false} AbsorbKeeps(m: map<string, Artist>, ys: seq<Artist>, n: string)
    requires n in m
    ensures n in Absorb(m, ys) && Refines(Absorb(m, ys)[n], m[n])
    decreases |ys|
  {
    if |ys| != 0 {
      var init := ys[..|ys| - 1];
      AbsorbKeeps(m, init, n);
      var prior := Absorb(m, init);
      if ys[|ys| - 1].name == n {
        RefinesTrans(Absorb(m, ys)[n], prior[n], m[n]);
      }
    }
  }

  /** Absorbing two lists one after the other is absorbing their concatenation. */
  lemma {:induction false} AbsorbAppend(m: map<string, Artist>, a: seq<Artist>, b: seq<Artist>)
    ensures Absorb(m, a + b) == Absorb(Absorb(m, a), b)
    decreases |b|
  {
    if |b| == 0 {
      assert a + b == a;
    } else {
      var init := b[..|b| - 1];
      assert (a + b)[..|a + b| - 1] == a + init;
      AbsorbAppend(m, a, init);
    }
  }

  /** The merged map holds the names of both sources, each under its own name, no more than both lists together. */
  lemma MergedKeys(spotify: seq<Artist>, lastfm: seq<Artist>)
    ensures KeyedByName(Merged(spotify, lastfm))
    ensures forall n :: n in Merged(spotify, lastfm) <==> Named(spotify, n) || Named(lastfm, n)
    ensures |Merged(spotify, lastfm).Keys| <= |spotify| + |lastfm|
  {
    ByNameKeys(spotify);
    AbsorbKeys(ByName(spotify), lastfm);
  }

  /** A name Spotify returned keeps Spotify's (last) record; Last.fm can only fill its gaps. */
  lemma SpotifyWins(spotify: seq<Artist>, lastfm: seq<Artist>, n: string)
    requires Named(spotify, n)
    ensures n in Merged(spotify, lastfm) && n in ByName(spotify)
    ensures Refines(Merged(spotify, lastfm)[n], ByName(spotify)[n])
  {
    ByNameKeys(spotify);
    AbsorbKeeps(ByName(spotify), lastfm, n);
  }

  /** A name only Last.fm returned keeps the first Last.fm record of that name; later ones can only fill its gaps. */
  lemma LastFMOnly(spotify: seq<Artist>, lastfm: seq<Artist>, n: string, j: int)
    requires !Named(spotify, n)
    requires 0 <= j < |lastfm| && lastfm[j].name == n && forall i :: 0 <= i < j ==> lastfm[i].name != n
    ensures n in Merged(spotify, lastfm) && Refines(Merged(spotify, lastfm)[n], lastfm[j])
  {
    var m := ByName(spotify);
    ByNameKeys(spotify);
    FirstEntry(m, lastfm, n, j);
    var upTo := Absorb(m, lastfm[..j + 1]);
    AbsorbKeeps(upTo, lastfm[j + 1..], n);
    assert lastfm == lastfm[..j + 1] + lastfm[j + 1..];
    AbsorbAppend(m, lastfm[..j + 1], lastfm[j + 1..]);
  }

  /** The first record of a new name is stored as it is. */
  lemma FirstEntry(m: map<string, Artist>, ys: seq<Artist>, n: string, j: int)
    requires n !in m && 0 <= j < |ys| && ys[j].name == n && forall i :: 0 <= i < j ==> ys[i].name != n
    ensures n in Absorb(m, ys[..j + 1]) && Absorb(m, ys[..j + 1])[n] == ys[j]
  {
    AbsentUntil(m, ys[..j], n);
    assert ys[..j + 1][..j] == ys[..j];
  }

  /** A name that neither the map nor the absorbed records have stays absent. */
  lemma {:induction false} AbsentUntil(m: map<string, Artist>, ys: seq<Artist>, n: string)
    requires n !in m && forall i :: 0 <= i < |ys| ==> ys[i].name != n
    ensures n !in Absorb(m, ys)
    decreases |ys|
  {
    if |ys| != 0 {
      AbsentUntil(m, ys[..|ys| - 1], n);
    }
  }

  // ------------------------------------------------------------- the search

  /** `xs` lists the records of `m`, each once, in some order. */
  predicate Lists(xs: seq<Artist>, m: map<string, Artist>)
  {
    && |xs| == |m.Keys|
    && (forall i :: 0 <= i < |xs| ==> xs[i].name in m && m[xs[i].name] == xs[i])
    && (forall n :: n in m ==> exists i :: 0 <= i < |xs| && xs[i].name == n)
    && (forall i, j :: 0 <= i < j < |xs| ==> xs[i].name != xs[j].name)
  }

  function BothFailed(spotifyErr: Error, lastfmErr: Error): Error
  {
    Failure("all external APIs failed: spotify=" + Message(spotifyErr) + ", lastfm=" + Message(lastfmErr))
  }

  /**
   * `ArtistAggregator.SearchArtists`: an error when both clients fail;
   * otherwise the merged artists, in map order. A missing client counts as
   * answering nothing, so one missing client and one failing one give an
   * empty list and no error.
   */
  method SearchArtists(spotify: Answer, lastfm: Answer) returns (r: Result<seq<Artist>>)
    ensures Failed(spotify) && Failed(lastfm) ==> r == Err(BothFailed(spotify.value.error, lastfm.value.error))
    ensures !(Failed(spotify) && Failed(lastfm)) ==> r.Ok? && Lists(r.value, Merged(Artists(spotify), Artists(lastfm)))
  {
    var spotifyArtists: seq<Artist> := [];
    var lastfmArtists: seq<Artist> := [];
    var spotifyErr: Option<Error> := None;
    var lastfmErr: Option<Error> := None;
    if spotify.Some? {
      match spotify.value
      case Ok(xs) => spotifyArtists := xs;
      case Err(e) => spotifyErr := Some(e);
    }
    if lastfm.Some? {
      match lastfm.value
      case Ok(xs) => lastfmArtists := xs;
      case Err(e) => lastfmErr := Some(e);
    }
    if spotifyErr.Some? && lastfmErr.Some? {
      return Err(BothFailed(spotifyErr.value, lastfmErr.value));
    }

    var artistMap := IndexByName(spotifyArtists);
    artistMap := AbsorbLastFM(artistMap, lastfmArtists);
    MergedKeys(spotifyArtists, lastfmArtists);
    var result := Values(artistMap);
    r := Ok(result);
  }

  /** The Spotify loop of `SearchArtists` (and the local loop of the artist service): each artist stored under its name. */
  method IndexByName(spotifyArtists: seq<Artist>) returns (artistMap: map<string, Artist>)
    ensures artistMap == ByName(spotifyArtists)
  {
    artistMap := map[];
    for i := 0 to |spotifyArtists|
      invariant artistMap == ByName(spotifyArtists[..i])
    {
      var artist := spotifyArtists[i];
      assert spotifyArtists[..i + 1][..i] == spotifyArtists[..i];
      artistMap := artistMap[artist.name := artist];
    }
    assert spotifyArtists[..|spotifyArtists|] == spotifyArtists;
  }

  /** The Last.fm loop of `SearchArtists`. */
  method AbsorbLastFM(start: map<string, Artist>, lastfmArtists: seq<Artist>) returns (artistMap: map<string, Artist>)
    ensures artistMap == Absorb(start, lastfmArtists)
  {
    artistMap := start;
    for i := 0 to |lastfmArtists|
      invariant artistMap == Absorb(start, lastfmArtists[..i])
    {
      var artist := lastfmArtists[i];
      assert lastfmArtists[..i + 1][..i] == lastfmArtists[..i];
      if artist.name in artistMap {
        artistMap := artistMap[artist.name := Fill(artistMap[artist.name], artist)];
      } else {
        artistMap := artistMap[artist.name := artist];
      }
    }
    assert lastfmArtists[..|lastfmArtists|] == lastfmArtists;
  }

  /** The final loop of `SearchArtists`: every record of the map, in the map's iteration order. */
  method Values(artistMap: map<string, Artist>) returns (result: seq<Artist>)
    requires KeyedByName(artistMap)
    ensures Lists(result, artistMap)
  {
    var names := Enumerate(artistMap.Keys);
    result := [];
    for i := 0 to |names|
      invariant |result| == i
      invariant forall j :: 0 <= j < i ==> result[j] == artistMap[names[j]] && result[j].name == names[j]
    {
      result := result + [artistMap[names[i]]];
    }
    forall n | n in artistMap ensures exists i :: 0 <= i < |result| && result[i].name == n {
      var i :| 0 <= i < |names| && names[i] == n;
    }
  }

  /** The merged list is never longer than the two answers together. */
  lemma ListsBounded(xs: seq<Artist>, spotify: seq<Artist>, lastfm: seq<Artist>)
    requires Lists(xs, Merged(spotify, lastfm))
    ensures |xs| <= |spotify| + |lastfm|
  {
    MergedKeys(spotify, lastfm);
  }
}
