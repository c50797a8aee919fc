/**
 * The brand dashboard's client-side filtering of the influencer listing, the
 * "already shortlisted" test and the filter reset.
 */
module BrandDashboard {
  import opened Wrappers
  import opened Seqs
  import opened JsText
  import opened Domain
  import opened Records
  import opened Users
  import opened Shortlists

  /** The six filter inputs; the empty string means the filter is off. */
  datatype Filters = Filters(
    location: string,
    ageRange: string,
    genre: string,
    platform: string,
    followerRange: string,
    engagementRate: string)

  /** What "Clear Filters" sets: every input empty. */
  const ClearedFilters: Filters := Filters("", "", "", "", "", "")

  /** `inf.location?.country?.toLowerCase().includes(location.toLowerCase())`. */
  predicate CountryMatches(location: string, inf: Listed) {
    inf.user.location.Some? && Includes(ToLower(inf.user.location.value.country), ToLower(location))
  }

  /** `ageRange.split('-').map(Number)`: the two bounds, a missing or malformed one NaN. */
  function AgeRangeBounds(range: string): (Option<real>, Option<real>) {
    var pieces := Split(range, '-');
    (ToNumber(pieces[0]), if |pieces| > 1 then ToNumber(pieces[1]) else None)
  }

  /** `inf.age >= min && inf.age <= max`: any NaN or a missing age fails. */
  predicate AgeMatches(range: string, inf: Listed) {
    var (min, max) := AgeRangeBounds(range);
    inf.user.age.Some? && min.Some? && max.Some? &&
    min.value <= inf.user.age.value as real <= max.value
  }

  /** Some genre contains the filter text, ignoring case. */
  predicate GenreMatches(genre: string, inf: Listed) {
    exists i :: 0 <= i < |inf.user.genres| && Includes(ToLower(inf.user.genres[i]), ToLower(genre))
  }

  /** Some stats entry is on the named platform. */
  predicate PlatformMatches(platform: string, inf: Listed) {
    exists i :: 0 <= i < |inf.platforms| && PlatformName(inf.platforms[i].platform) == platform
  }

  /** `inf.stats?.avgEngagement >= parseFloat(threshold)`: false whenever the threshold is NaN. */
  predicate EngagementMatches(threshold: string, inf: Listed) {
    ParseFloat(threshold).Some? && inf.avgEngagement >= ParseFloat(threshold).value
  }

  /** Filter number `k` of the pipeline, which lets everything through when its input is empty. */
  predicate Passes(filters: Filters, k: nat, inf: Listed) {
    if k == 0 then filters.location == "" || CountryMatches(filters.location, inf)
    else if k == 1 then filters.ageRange == "" || AgeMatches(filters.ageRange, inf)
    else if k == 2 then filters.genre == "" || GenreMatches(filters.genre, inf)
    else if k == 3 then filters.platform == "" || PlatformMatches(filters.platform, inf)
    else filters.engagementRate == "" || EngagementMatches(filters.engagementRate, inf)
  }

  /** `inf` passes the first `n` filters. */
  predicate PassesFirst(filters: Filters, n: nat, inf: Listed) {
    n == 0 || (PassesFirst(filters, n - 1, inf) && Passes(filters, n - 1, inf))
  }

  /** The five filters together; `followerRange` is not among them. */
  predicate Keeps(filters: Filters, inf: Listed) {
    PassesFirst(filters, 5, inf)
  }

  /** One more filter applied to the survivors of the first `n`. */
  lemma NextStage(s: seq<Listed>, filters: Filters, n: nat, before: seq<Listed>, after: seq<Listed>)
    requires before == Filter(s, (x: Listed) => PassesFirst(filters, n, x))
    requires after == Filter(before, (x: Listed) => Passes(filters, n, x))
    ensures after == Filter(s, (x: Listed) => PassesFirst(filters, n + 1, x))
  {
    FilterTwice(s, (x: Listed) => PassesFirst(filters, n, x), (x: Listed) => Passes(filters, n, x),
                (x: Listed) => PassesFirst(filters, n + 1, x));
  }

  /** `if (filters.location) filtered = filtered.filter(...)`. */
  method LocationStep(filtered: seq<Listed>, filters: Filters) returns (next: seq<Listed>)
    ensures next == Filter(filtered, (x: Listed) => Passes(filters, 0, x))
  {
    if filters.location != "" {
      next := Filter(filtered, (x: Listed) => CountryMatches(filters.location, x));
      FilterSamePredicate(filtered, (x: Listed) => CountryMatches(filters.location, x), (x: Listed) => Passes(filters, 0, x));
    } else {
      next := filtered;
      FilterKeepsAll(filtered, (x: Listed) => Passes(filters, 0, x));
    }
  }

  /** `if (filters.ageRange) ...`. */
  method AgeStep(filtered: seq<Listed>, filters: Filters) returns (next: seq<Listed>)
    ensures next == Filter(filtered, (x: Listed) => Passes(filters, 1, x))
  {
    if filters.ageRange != "" {
      next := Filter(filtered, (x: Listed) => AgeMatches(filters.ageRange, x));
      FilterSamePredicate(filtered, (x: Listed) => AgeMatches(filters.ageRange, x), (x: Listed) => Passes(filters, 1, x));
    } else {
      next := filtered;
      FilterKeepsAll(filtered, (x: Listed) => Passes(filters, 1, x));
    }
  }

  /** `if (filters.genre) ...`. */
  method GenreStep(filtered: seq<Listed>, filters: Filters) returns (next: seq<Listed>)
    ensures next == Filter(filtered, (x: Listed) => Passes(filters, 2, x))
  {
    if filters.genre != "" {
      next := Filter(filtered, (x: Listed) => GenreMatches(filters.genre, x));
      FilterSamePredicate(filtered, (x: Listed) => GenreMatches(filters.genre, x), (x: Listed) => Passes(filters, 2, x));
    } else {
      next := filtered;
      FilterKeepsAll(filtered, (x: Listed) => Passes(filters, 2, x));
    }
  }

  /** `if (filters.platform) ...`. */
  method PlatformStep(filtered: seq<Listed>, filters: Filters) returns (next: seq<Listed>)
    ensures next == Filter(filtered, (x: Listed) => Passes(filters, 3, x))
  {
    if filters.platform != "" {
      next := Filter(filtered, (x: Listed) => PlatformMatches(filters.platform, x));
      FilterSamePredicate(filtered, (x: Listed) => PlatformMatches(filters.platform, x), (x: Listed) => Passes(filters, 3, x));
    } else {
      next := filtered;
      FilterKeepsAll(filtered, (x: Listed) => Passes(filters, 3, x));
    }
  }

  /** `if (filters.engagementRate) ...`. */
  method EngagementStep(filtered: seq<Listed>, filters: Filters) returns (next: seq<Listed>)
    ensures next == Filter(filtered, (x: Listed) => Passes(filters, 4, x))
  {
    if filters.engagementRate != "" {
      next := Filter(filtered, (x: Listed) => EngagementMatches(filters.engagementRate, x));
      FilterSamePredicate(filtered, (x: Listed) => EngagementMatches(filters.engagementRate, x), (x: Listed) => Passes(filters, 4, x));
    } else {
      next := filtered;
      FilterKeepsAll(filtered, (x: Listed) => Passes(filters, 4, x));
    }
  }

  /** `applyFilters`: location, age, genre, platform and engagement, one after the other. */
  method ApplyFilters(influencers: seq<Listed>, filters: Filters) returns (filtered: seq<Listed>)
    ensures filtered == Filter(influencers, (x: Listed) => Keeps(filters, x))
  {
    filtered := influencers;
    FilterKeepsAll(influencers, (x: Listed) => PassesFirst(filters, 0, x));
    var before := filtered;
    filtered := LocationStep(filtered, filters);
    NextStage(influencers, filters, 0, before, filtered);
    before := filtered;
    filtered := AgeStep(filtered, filters);
    NextStage(influencers, filters, 1, before, filtered);
    before := filtered;
    filtered := GenreStep(filtered, filters);
    NextStage(influencers, filters, 2, before, filtered);
    before := filtered;
    filtered := PlatformStep(filtered, filters);
    NextStage(influencers, filters, 3, before, filtered);
    before := filtered;
    filtered := EngagementStep(filtered, filters);
    NextStage(influencers, filters, 4, before, filtered);
    FilterSamePredicate(influencers, (x: Listed) => PassesFirst(filters, 5, x), (x: Listed) => Keeps(filters, x));
  }

  /** Passing all five filters, spelled out. */
  lemma KeepsMeaning(filters: Filters, inf: Listed)
    ensures Keeps(filters, inf) <==>
      && (filters.location == "" || CountryMatches(filters.location, inf))
      && (filters.ageRange == "" || AgeMatches(filters.ageRange, inf))
      && (filters.genre == "" || GenreMatches(filters.genre, inf))
      && (filters.platform == "" || PlatformMatches(filters.platform, inf))
      && (filters.engagementRate == "" || EngagementMatches(filters.engagementRate, inf))
  {
    assert PassesFirst(filters, 5, inf) <==>
      PassesFirst(filters, 4, inf) && Passes(filters, 4, inf);
    assert PassesFirst(filters, 4, inf) <==>
      PassesFirst(filters, 3, inf) && Passes(filters, 3, inf);
    assert PassesFirst(filters, 3, inf) <==>
      PassesFirst(filters, 2, inf) && Passes(filters, 2, inf);
    assert PassesFirst(filters, 2, inf) <==>
      PassesFirst(filters, 1, inf) && Passes(filters, 1, inf);
  }

  /** The dashboard shows listed influencers only, in listing order, exactly those that pass. */
  lemma FilteredSelection(influencers: seq<Listed>, filters: Filters)
    ensures IsSubsequence(Filter(influencers, (x: Listed) => Keeps(filters, x)), influencers)
    ensures forall x :: x in Filter(influencers, (x: Listed) => Keeps(filters, x)) <==> x in influencers && Keeps(filters, x)
  {
    FilterIsSubsequence(influencers, (x: Listed) => Keeps(filters, x));
    forall x
      ensures x in Filter(influencers, (x: Listed) => Keeps(filters, x)) <==> x in influencers && Keeps(filters, x)
    {
      FilterMembership(influencers, (x: Listed) => Keeps(filters, x), x);
    }
  }

  /** With every input empty the dashboard shows the whole listing. */
  lemma ClearedKeepsAll(influencers: seq<Listed>)
    ensures Filter(influencers, (x: Listed) => Keeps(ClearedFilters, x)) == influencers
  {
    forall i | 0 <= i < |influencers|
      ensures Keeps(ClearedFilters, influencers[i])
    {
      KeepsMeaning(ClearedFilters, influencers[i]);
    }
    FilterKeepsAll(influencers, (x: Listed) => Keeps(ClearedFilters, x));
  }

  /** The follower-range input has no effect on what is shown. */
  lemma FollowerRangeIgnored(filters: Filters, range: string, inf: Listed)
    ensures Keeps(filters.(followerRange := range), inf) == Keeps(filters, inf)
  {
    KeepsMeaning(filters, inf);
    KeepsMeaning(filters.(followerRange := range), inf);
  }

  /** The location test ignores the case of what was typed. */
  lemma CountryMatchIgnoresCase(location: string, inf: Listed)
    ensures CountryMatches(ToLower(location), inf) == CountryMatches(location, inf)
  {
    ToLowerIdempotent(location);
  }

  /** Every influencer the server's exact country match selects also passes the client's test. */
  lemma ExactCountryPasses(inf: Listed)
    requires inf.user.location.Some?
    ensures CountryMatches(inf.user.location.value.country, inf)
  {
    var c := ToLower(inf.user.location.value.country);
    assert c == [] + c + [];
    IncludesMiddle([], c, []);
  }

  /** An influencer without stats fails a set platform filter, which the server's listing would keep. */
  lemma NoStatsFailsPlatform(filters: Filters, inf: Listed)
    requires filters.platform != "" && inf.platforms == []
    ensures !Keeps(filters, inf)
  {
    KeepsMeaning(filters, inf);
  }

  /** A threshold that does not parse hides everyone, where the server's listing drops nobody for it. */
  lemma UnparsableThresholdHidesAll(filters: Filters, influencers: seq<Listed>)
    requires filters.engagementRate != "" && ParseFloat(filters.engagementRate).None?
    ensures Filter(influencers, (x: Listed) => Keeps(filters, x)) == []
  {
    forall x | x in influencers
      ensures !Keeps(filters, x)
    {
      KeepsMeaning(filters, x);
    }
    FilterEmpty(influencers, (x: Listed) => Keeps(filters, x));
  }

  /** An age range `min-max` keeps exactly the influencers whose age lies between the two. */
  lemma AgeRangeOfNumbers(lo: nat, hi: nat, inf: Listed)
    ensures AgeMatches(NatToString(lo) + "-" + NatToString(hi), inf) <==>
      inf.user.age.Some? && lo <= inf.user.age.value <= hi
  {
    var a, b := NatToString(lo), NatToString(hi);
    NatToStringDigits(lo);
    NatToStringDigits(hi);
    assert '-' !in a && '-' !in b;
    SplitAtSeparator(a, b, '-');
    SplitWithoutSeparator(b, '-');
    assert a + "-" + b == a + ['-'] + b;
    ToNumberOfNatToString(lo);
    ToNumberOfNatToString(hi);
  }

  /** `shortlist.some(item => item.influencerId._id === id)`. */
  function IsInShortlist(shortlist: seq<Entry>, id: string): (found: bool)
    ensures found <==> exists i :: 0 <= i < |shortlist| && shortlist[i].influencerId == id
  {
    if shortlist == [] then false
    else if shortlist[0].influencerId == id then true
    else
      var rest := IsInShortlist(shortlist[1..], id);
      assert forall i :: 0 < i < |shortlist| ==> shortlist[i] == shortlist[1..][i - 1];
      rest
  }
}
