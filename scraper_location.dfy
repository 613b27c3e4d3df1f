/**
 * The `parseLocation` helper both HTML scrapers share (the Bandcamp and the
 * Resident Advisor scraper carry identical copies): a `"city, …, country"`
 * text written into a scraped event.
 */
module ScraperLocation {
  import opened Text
  import opened Scrapers

  /** `k` is the position of the first comma of `s`. */
  predicate FirstComma(s: string, k: int)
  {
    0 <= k < |s| && s[k] == ',' && forall j :: 0 <= j < k ==> s[j] != ','
  }

  /** `k` is the position of the last comma of `s`. */
  predicate LastComma(s: string, k: int)
  {
    0 <= k < |s| && s[k] == ',' && forall j :: k < j < |s| ==> s[j] != ','
  }

  /**
   * `parseLocation`: with two or more comma-separated parts the first is the
   * city and the last the country; with one part only the city is set.
   */
  function ParseLocation(location: string, event: ScrapedEvent): (r: ScrapedEvent)
    ensures r == event.(city := r.city, country := r.country)
  {
    var parts := Split(location, ",");
    if |parts| >= 2 then event.(city := TrimSpace(parts[0]), country := TrimSpace(parts[|parts| - 1]))
    else event.(city := TrimSpace(parts[0]))
  }

  /**
   * Without a comma the whole trimmed text is the city and the country is
   * left as it was; otherwise the city is the text before the first comma
   * and the country the text after the last one, both trimmed.
   */
  lemma ParseLocationMeans(location: string, event: ScrapedEvent)
    ensures ',' !in location ==> ParseLocation(location, event) == event.(city := TrimSpace(location))
    ensures ',' in location ==>
      exists i, k :: FirstComma(location, i) && LastComma(location, k) &&
        ParseLocation(location, event) == event.(city := TrimSpace(location[..i]), country := TrimSpace(location[k + 1..]))
  {
    var parts := Split(location, ",");
    ContainsChar(location, ',');
    SplitMany(location, ",");
    SplitHead(location, ",");
    if ',' !in location {
      assert parts == [location];
    } else {
      var i := IndexOf(location, ",");
      assert location[i..i + 1] == ",";
      forall j | 0 <= j < i ensures location[j] != ',' {
        assert !OccursAt(location, ",", j);
        assert location[j..j + 1] == [location[j]];
      }
      assert FirstComma(location, i);
      var n := |parts| - 1;
      var last := parts[n];
      JoinSplit(location, ",");
      JoinLast(parts, ",");
      var pre := Join(parts[..n], ",");
      assert location == pre + "," + last;
      SplitPartsFree(location, ",");
      assert !Contains(last, ",");
      ContainsChar(last, ',');
      var k := |pre|;
      assert location[k + 1..] == last;
      forall j | k < j < |location| ensures location[j] != ',' {
        assert location[j] == last[j - k - 1];
      }
      assert LastComma(location, k);
    }
  }
}
