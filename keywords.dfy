/**
 * `extractGenresFromDescription`, as SoundCloud and YouTube Music both
 * write it: every entry of a fixed genre list that occurs in the lowercased
 * description, in list order. The two clients differ only in their list.
 */
module Keywords {
  import opened Text
  import opened Sequences
  import Dedup

  /** The test the loop applies to each listed genre. */
  function Mentions(description: string): string -> bool
  {
    (g: string) => Contains(ToLower(description), g)
  }

  /** The listed genres the description mentions, in list order. */
  function KeywordsIn(description: string, list: seq<string>): seq<string>
  {
    Filter(list, Mentions(description))
  }

  /** A genre is reported exactly when it is listed and the lowercased description contains it; the list order is kept. */
  lemma KeywordsInMeans(description: string, list: seq<string>)
    ensures forall g :: g in KeywordsIn(description, list) <==> g in list && Contains(ToLower(description), g)
    ensures Dedup.IsSubseq(KeywordsIn(description, list), list)
    ensures |KeywordsIn(description, list)| <= |list|
  {
    FilterKeeps(list, Mentions(description));
  }

  /** An empty description mentions no genre of a list without empty entries. */
  lemma NoKeywordsInEmpty(list: seq<string>)
    requires forall k :: 0 <= k < |list| ==> list[k] != ""
    ensures KeywordsIn("", list) == []
  {
    KeywordsInMeans("", list);
    assert ToLower("") == "";
    assert forall g :: g in list ==> !Contains("", g);
    var r := KeywordsIn("", list);
    assert forall k :: 0 <= k < |r| ==> r[k] in r;
  }

  /** The loop of `extractGenresFromDescription`. */
  method ScanKeywords(description: string, list: seq<string>) returns (genres: seq<string>)
    ensures genres == KeywordsIn(description, list)
  {
    var descLower := ToLower(description);
    genres := [];
    for i := 0 to |list|
      invariant genres == Filter(list[..i], Mentions(description))
    {
      assert list[..i + 1][..i] == list[..i];
      if Contains(descLower, list[i]) {
        genres := genres + [list[i]];
      }
    }
    assert list[..|list|] == list;
  }
}
