/**
 * The artist service: a search that answers from the local store when it
 * holds enough artists and otherwise tops up from the external aggregator,
 * a lookup by ID, and a save that gives a new artist a local ID.
 *
 * The store is not modelled: each store call is a parameter holding its
 * answer. The aggregator's answer is `None` when no aggregator is configured.
 */
module ArtistServices {
  import opened Wrappers
  import opened Domain
  import opened Sequences
  import opened Numerals
  import opened ArtistAggregation

  // ------------------------------------------------------------------ merge

  /** The external loop: a name not yet in the map is stored; a known name keeps its record. */
  function AddMissing(m: map<string, Artist>, ys: seq<Artist>): map<string, Artist>
    decreases |ys|
  {
    if |ys| == 0 then m
    else
      var prior := AddMissing(m, ys[..|ys| - 1]);
      var y := ys[|ys| - 1];
      if y.name in prior then prior else prior[y.name := y]
  }

  /** The map of `SearchArtists`: local artists by name (a later one replacing an earlier), then new external names. */
  function Combined(local: seq<Artist>, external: seq<Artist>): map<string, Artist>
  {
    AddMissing(ByName(local), external)
  }

  /** Adding keeps what was there and adds exactly the new names, with their first record. */
  lemma {:induction false} AddMissingMeans(m: map<string, Artist>, ys: seq<Artist>)
    requires KeyedByName(m)
    ensures KeyedByName(AddMissing(m, ys))
    ensures forall n :: n in AddMissing(m, ys) <==> n in m || Named(ys, n)
    ensures forall n :: n in m ==> AddMissing(m, ys)[n] == m[n]
    ensures |AddMissing(m, ys).Keys| <= |m.Keys| + |ys|
    decreases |ys|
  {
    if |ys| != 0 {
      var k := |ys| - 1;
      AddMissingMeans(m, ys[..k]);
      NamedStep(ys);
      StoreCount(AddMissing(m, ys[..k]), ys[k].name, ys[k]);
    }
  }

  /** A name new to the map takes its first record among the added ones. */
  lemma {:induction false} AddMissingFirst(m: map<string, Artist>, ys: seq<Artist>, n: string, j: int)
    requires n !in m && 0 <= j < |ys| && ys[j].name == n && forall i :: 0 <= i < j ==> ys[i].name != n
    ensures n in AddMissing(m, ys) && AddMissing(m, ys)[n] == ys[j]
    decreases |ys|
  {
    var k := |ys| - 1;
    if j < k {
      AddMissingFirst(m, ys[..k], n, j);
    } else {
      AddMissingAbsent(m, ys[..k], n);
    }
  }

  lemma {:induction false} AddMissingAbsent(m: map<string, Artist>, ys: seq<Artist>, n: string)
    requires n !in m && forall i :: 0 <= i < |ys| ==> ys[i].name != n
    ensures n !in AddMissing(m, ys)
    decreases |ys|
  {
    if |ys| != 0 {
      AddMissingAbsent(m, ys[..|ys| - 1], n);
    }
  }

  /**
   * The combined map: every local and external name, each under its own
   * name; a local name keeps its local record; never more entries than the
   * two lists together.
   */
  lemma CombinedMeans(local: seq<Artist>, external: seq<Artist>)
    ensures KeyedByName(Combined(local, external))
    ensures forall n :: n in Combined(local, external) <==> Named(local, n) || Named(external, n)
    ensures forall n :: n in ByName(local) ==> n in Combined(local, external) && Combined(local, external)[n] == ByName(local)[n]
    ensures |Combined(local, external).Keys| <= |local| + |external|
  {
    ByNameKeys(local);
    AddMissingMeans(ByName(local), external);
  }

  /** A name only the aggregator found keeps the aggregator's first record of it. */
  lemma ExternalFirst(local: seq<Artist>, external: seq<Artist>, n: string, j: int)
    requires !Named(local, n)
    requires 0 <= j < |external| && external[j].name == n && forall i :: 0 <= i < j ==> external[i].name != n
    ensures n in Combined(local, external) && Combined(local, external)[n] == external[j]
  {
    ByNameKeys(local);
    AddMissingFirst(ByName(local), external, n, j);
  }

  /**
   * `ys` is what a cut of the map's listing to `limit` can give: as many
   * records as the map has, up to `limit`, each once, each as stored.
   */
  predicate Selects(ys: seq<Artist>, m: map<string, Artist>, limit: int)
  {
    && |ys| == (if |m.Keys| <= limit then |m.Keys| else limit)
    && (forall i :: 0 <= i < |ys| ==> ys[i].name in m && m[ys[i].name] == ys[i])
    && (forall i, j :: 0 <= i < j < |ys| ==> ys[i].name != ys[j].name)
  }

  /** The names of a list of artists. */
  function NameSet(ys: seq<Artist>): set<string>
    decreases |ys|
  {
    if |ys| == 0 then {} else NameSet(ys[..|ys| - 1]) + {ys[|ys| - 1].name}
  }

  /** Distinct names are as many as the artists. */
  lemma {:induction false} NameSetCount(ys: seq<Artist>)
    requires forall i, j :: 0 <= i < j < |ys| ==> ys[i].name != ys[j].name
    ensures forall n :: n in NameSet(ys) <==> Named(ys, n)
    ensures |NameSet(ys)| == |ys|
    decreases |ys|
  {
    if |ys| != 0 {
      var k := |ys| - 1;
      NameSetCount(ys[..k]);
      NamedStep(ys);
      assert ys[k].name !in NameSet(ys[..k]);
    }
  }

  /** When the combined map fits in the limit, the cut loses nothing: every name is listed. */
  lemma SelectsAll(ys: seq<Artist>, m: map<string, Artist>, limit: int)
    requires Selects(ys, m, limit) && |m.Keys| <= limit
    ensures forall n :: n in m ==> exists i :: 0 <= i < |ys| && ys[i].name == n
  {
    NameSetCount(ys);
    var names := NameSet(ys);
    assert names <= m.Keys;
    if x :| x in m.Keys && x !in names {
      SubsetCount(names, m.Keys - {x});
      assert false;
    }
  }

  lemma {:induction false} SubsetCount<T>(a: set<T>, b: set<T>)
    requires a <= b
    ensures |a| <= |b|
    decreases a
  {
    if x :| x in a {
      SubsetCount(a - {x}, b - {x});
    }
  }

  // ----------------------------------------------------------------- search

  function Response(artists: seq<Artist>): (r: ArtistSearchResponse)
    ensures r.artists == artists && r.total == |artists|
  {
    ArtistSearchResponse(artists, |artists|)
  }

  /**
   * `ArtistService.SearchArtists`. `local` is the store's answer to the
   * search, `external` the aggregator's (`None` without an aggregator).
   */
  method SearchArtists(query: string, limit: int, local: Result<seq<Artist>>, external: Option<Result<seq<Artist>>>)
    returns (r: Result<ArtistSearchResponse>)
    ensures query == "" ==> r == Err(InvalidRequest)
    ensures query != "" && local.Err? ==> r == Err(Wrap("failed to search local artists", local.error))
    ensures query != "" && local.Ok? && (|local.value| >= limit || external.None?) ==> r == Ok(Response(local.value))
    ensures query != "" && local.Ok? && |local.value| < limit && external.Some? && external.value.Err? ==>
      r == if |local.value| > 0 then Ok(Response(local.value)) else Err(ExternalAPIFailure)
    ensures query != "" && local.Ok? && |local.value| < limit && external.Some? && external.value.Ok? ==>
      r.Ok? && Selects(r.value.artists, Combined(local.value, external.value.value), limit)
    ensures r.Ok? ==> r.value.total == |r.value.artists|
  {
    if query == "" {
      return Err(InvalidRequest);
    }
    if local.Err? {
      return Err(Wrap("failed to search local artists", local.error));
    }
    var localArtists := local.value;
    if |localArtists| >= limit {
      return Ok(Response(localArtists));
    }
    if external.Some? {
      if external.value.Err? {
        if |localArtists| > 0 {
          return Ok(Response(localArtists));
        }
        return Err(ExternalAPIFailure);
      }
      var externalArtists := external.value.value;
      var artistMap := IndexByName(localArtists);
      artistMap := AddExternal(artistMap, externalArtists);
      CombinedMeans(localArtists, externalArtists);
      var combined := Values(artistMap);
      if |combined| > limit {
        combined := combined[..limit];
      }
      return Ok(Response(combined));
    }
    r := Ok(Response(localArtists));
  }

  /** The external loop of `SearchArtists`. */
  method AddExternal(start: map<string, Artist>, externalArtists: seq<Artist>) returns (artistMap: map<string, Artist>)
    ensures artistMap == AddMissing(start, externalArtists)
  {
    artistMap := start;
    for i := 0 to |externalArtists|
      invariant artistMap == AddMissing(start, externalArtists[..i])
    {
      var artist := externalArtists[i];
      assert externalArtists[..i + 1][..i] == externalArtists[..i];
      if artist.name !in artistMap {
        artistMap := artistMap[artist.name := artist];
      }
    }
    assert externalArtists[..|externalArtists|] == externalArtists;
  }

  // ---------------------------------------------------------- lookup, save

  /** `GetArtist`: an empty ID is rejected before the store is asked; otherwise the store's answer. */
  function GetArtist(id: string, stored: Result<Artist>): (r: Result<Artist>)
    ensures id == "" ==> r == Err(InvalidRequest)
    ensures id != "" ==> r == stored
  {
    if id == "" then Err(InvalidRequest) else stored
  }

  /** The ID given to a new artist: `local_` and the clock in nanoseconds. */
  function LocalID(nanos: int): string
  {
    "local_" + IntToString(nanos)
  }

  /** Local IDs made at different nanoseconds differ, and each starts with `local_`. */
  lemma LocalIDsDistinct(a: int, b: int)
    requires Int64Min <= a <= Int64Max && Int64Min <= b <= Int64Max && a != b
    ensures LocalID(a) != LocalID(b)
    ensures LocalID(a)[..6] == "local_"
  {
    AtoiIntToString(a);
    AtoiIntToString(b);
    assert LocalID(a)[6..] == IntToString(a);
    assert LocalID(b)[6..] == IntToString(b);
  }

  /**
   * `SaveArtist`: a missing artist or one without a name is rejected; an
   * artist without an ID gets a local one (the caller's record is updated,
   * returned here as `saved`); then the store's `Create` decides.
   */
  method SaveArtist(artist: Option<Artist>, nanos: int, create: Artist -> Option<Error>)
    returns (err: Option<Error>, saved: Option<Artist>)
    ensures artist.None? || artist.value.name == "" ==> err == Some(InvalidRequest) && saved == artist
    ensures artist.Some? && artist.value.name != "" ==>
      && saved.Some?
      && saved.value == artist.value.(id := saved.value.id)
      && saved.value.id == (if artist.value.id == "" then LocalID(nanos) else artist.value.id)
      && saved.value.id != ""
      && err == create(saved.value)
  {
    if artist.None? || artist.value.name == "" {
      return Some(InvalidRequest), artist;
    }
    var a := artist.value;
    if a.id == "" {
      a := a.(id := LocalID(nanos));
    }
    saved := Some(a);
    err := create(a);
  }
}
