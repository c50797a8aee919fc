/**
 * The seed script's generation rules: 30 influencer profiles, then the stats
 * documents of their connected platforms, then 10 brands. The database calls
 * are left out; the ObjectIds and the password hash are inputs.
 */
module SeedData {
  import opened Wrappers
  import opened Seqs
  import opened Randomness
  import opened Domain
  import opened AiAnalysis
  import opened Records
  import opened PostBatches
  import JsText

  const Genres: seq<string> := ["Travel", "Fashion", "Food", "Fitness", "Tech", "Lifestyle", "Beauty", "Photography"]

  datatype Country = Country(name: string, cities: seq<string>)

  const Countries: seq<Country> := [
    Country("United States", ["New York", "Los Angeles", "Chicago", "San Francisco", "Miami"]),
    Country("United Kingdom", ["London", "Manchester", "Birmingham", "Liverpool"]),
    Country("India", ["Mumbai", "Delhi", "Bangalore", "Hyderabad"]),
    Country("Canada", ["Toronto", "Vancouver", "Montreal"])]

  const CompanyNames: seq<string> := [
    "Global Marketing Co", "Fresh Brands", "Digital Innovations", "NextGen Media",
    "Creative Agency", "Brand Solutions", "Marketing Pro", "Ad Ventures",
    "Brand Connect", "Marketing Hub"]

  const Industries: seq<string> := ["Fashion", "Tech", "Food & Beverage", "Travel", "Lifestyle", "Beauty", "Fitness"]

  const InfluencerCount: nat := 30
  const BrandCount: nat := 10

  /** Draws one profile consumes at most: country, city, genre count, up to 3 genres, age, price, two platform flags. */
  const MaxProfileDraws: nat := 10

  /** Draws one platform's stats consume at most: followers, 30 for the largest batch, then the engine's. */
  const MaxPlatformDraws: nat := 31 + MaxDraws

  /** Draws the whole script consumes at most. */
  const MaxSeedDraws: nat := InfluencerCount * MaxProfileDraws + InfluencerCount * 3 * MaxPlatformDraws + BrandCount

  /** The seed names posts `post_<i>`, `video_<i>` and `fb_post_<i>`. */
  function SeedBatch(p: Platform): BatchConfig {
    match p
    case Instagram => BatchFor(p, "post_")
    case YouTube => BatchFor(p, "video_")
    case Facebook => BatchFor(p, "fb_post_")
  }

  /** The seed's follower ranges, lower than the mock routes'. */
  function SeedFollowers(p: Platform): FollowerRange {
    match p
    case Instagram => FollowerRange(2000, 50000)
    case YouTube => FollowerRange(5000, 100000)
    case Facebook => FollowerRange(1000, 30000)
  }

  lemma SeedBatchWellFormed(p: Platform)
    ensures WellFormed(SeedBatch(p)) && BatchDraws(SeedBatch(p)) <= 30
  {
    match p
    case Instagram => BatchForWellFormed(p, "post_");
    case YouTube => BatchForWellFormed(p, "video_");
    case Facebook => BatchForWellFormed(p, "fb_post_");
  }

  // ---------------------------------------------------------------- profiles

  /** The city belongs to the city list of the country it is stored with. */
  predicate CityInCountry(loc: Location) {
    exists k, m :: 0 <= k < |Countries| && 0 <= m < |Countries[k].cities| && Countries[k].name == loc.country && loc.city == Some(Countries[k].cities[m])
  }

  /** What every seeded influencer satisfies. */
  predicate SeededInfluencer(u: User) {
    && u.role == Influencer
    && NoDuplicates(u.genres) && 1 <= |u.genres| <= 3
    && (forall g :: g in u.genres ==> g in Genres)
    && u.age.Some? && 18 <= u.age.value <= 52
    && u.pricePerPost.Some? && 100 <= u.pricePerPost.value <= 999
    && u.location.Some? && CityInCountry(u.location.value)
    && IsConnected(u, Instagram)
  }

  /** A country drawn from the list, then one of its cities; the state is left unset. */
  function DrawnLocation(r0: real, r1: real): (loc: Location)
    requires IsDraw(r0) && IsDraw(r1)
    ensures CityInCountry(loc) && loc.state.None?
  {
    var k := RandomIndex(r0, |Countries|);
    var m := RandomIndex(r1, |Countries[k].cities|);
    var loc := Location(Some(Countries[k].cities[m]), None, Countries[k].name);
    assert Countries[k].name == loc.country && loc.city == Some(Countries[k].cities[m]);
    loc
  }

  function InfluencerEmail(i: nat): string {
    "influencer" + JsText.NatToString(i) + "@example.com"
  }

  /** One pass of the influencer loop (`i` counts from 1). */
  method SeedInfluencer(i: nat, id: string, hashedPassword: string, draws: seq<real>) returns (u: User, used: nat)
    requires AreDraws(draws) && |draws| >= MaxProfileDraws
    ensures SeededInfluencer(u)
    ensures u.id == id && u.email == InfluencerEmail(i) && u.password == hashedPassword
    ensures 8 <= used <= MaxProfileDraws
    ensures u.genres == Dedup(Picks(Genres, draws[3..used - 4]))
    ensures IsConnected(u, YouTube) <==> draws[used - 2] > 0.3
    ensures IsConnected(u, Facebook) <==> draws[used - 1] > 0.5
  {
    var location := DrawnLocation(draws[0], draws[1]);
    var numGenres := 1 + RandomIndex(draws[2], 3);
    var genres := DrawDistinct(Genres, draws[3..], numGenres);
    assert draws[3..][..numGenres] == draws[3..3 + numGenres];
    var k := 3 + numGenres;
    var age := 18 + RandomIndex(draws[k], 35);
    var price := 100 + RandomIndex(draws[k + 1], 900);
    var youtube := draws[k + 2] > 0.3;
    var facebook := draws[k + 3] > 0.5;
    used := k + 4;
    var n := JsText.NatToString(i);
    u := User(
      id, InfluencerEmail(i), hashedPassword, Influencer, "Influencer " + n,
      Some("https://i.pravatar.cc/150?img=" + n), Some(age), Some(location), genres, Some(price), Some(InfluencerEmail(i)),
      map[Instagram := PlatformLink("ig_" + n, "@influencer" + n, true),
          YouTube := PlatformLink("yt_" + n, "Influencer" + n + " Channel", youtube),
          Facebook := PlatformLink("fb_" + n, "influencer" + n, facebook)],
      None, None);
  }

  // ---------------------------------------------------------------- stats

  /** What every seeded stats document satisfies, against the influencer it belongs to. */
  predicate SeededStats(r: StatsRecord, u: User) {
    && r.userId == u.id
    && IsConnected(u, r.platform)
    && SeedFollowers(r.platform).min <= r.followers < SeedFollowers(r.platform).min + SeedFollowers(r.platform).span
    && |r.posts| == SeedBatch(r.platform).count
    && 1 <= r.analysis.influenceScore <= 100
    && 75 <= r.analysis.confidencePercent <= 95
  }

  /** One platform block of the stats loop: followers first, then the batch, then the engine. */
  method SeedPlatformStats(u: User, p: Platform, now: int, draws: seq<real>) returns (r: StatsRecord, used: nat)
    requires IsConnected(u, p) && AreDraws(draws) && |draws| >= MaxPlatformDraws
    ensures SeededStats(r, u) && r.platform == p
    ensures r.followers == RandomInt(draws[0], SeedFollowers(p).min, SeedFollowers(p).span)
    ensures r.posts == Batch(SeedBatch(p), now, draws[1..])
    ensures r.analysis == InfluenceStatsOf(r.posts, r.followers, p, draws[1 + BatchDraws(SeedBatch(p))..])
    ensures r.lastUpdated == now && r.createdAt == now
    ensures used == 1 + BatchDraws(SeedBatch(p)) + DrawsUsed(draws[1 + BatchDraws(SeedBatch(p))..])
    ensures used <= MaxPlatformDraws
  {
    var range := SeedFollowers(p);
    var followers := RandomInt(draws[0], range.min, range.span);
    var c := SeedBatch(p);
    SeedBatchWellFormed(p);
    var posts := GeneratePosts(c, now, draws[1..]);
    var n := 1 + BatchDraws(c);
    var analysis, engineDraws := GenerateInfluenceStats(posts, followers, p, draws[n..]);
    InfluenceStatsProperties(posts, followers, p, draws[n..]);
    r := StatsRecord(u.id, p, followers, posts, analysis, now, now);
    used := n + engineDraws;
  }

  /** The platforms a list of stats documents covers. */
  function PlatformsOf(stats: seq<StatsRecord>): set<Platform> {
    set r | r in stats :: r.platform
  }

  /** Appends a document for a platform not yet covered, keeping the list's guarantees. */
  function AppendStats(stats: seq<StatsRecord>, r: StatsRecord, u: User): (s: seq<StatsRecord>)
    requires forall x :: x in stats ==> SeededStats(x, u)
    requires forall i, j :: 0 <= i < j < |stats| ==> stats[i].platform != stats[j].platform
    requires SeededStats(r, u) && r.platform !in PlatformsOf(stats)
    ensures s == stats + [r]
    ensures forall x :: x in s ==> SeededStats(x, u)
    ensures forall i, j :: 0 <= i < j < |s| ==> s[i].platform != s[j].platform
    ensures PlatformsOf(s) == PlatformsOf(stats) + {r.platform}
  {
    assert forall x :: x in stats + [r] <==> x in stats || x == r;
    assert forall i :: 0 <= i < |stats| ==> stats[i] in stats;
    stats + [r]
  }

  /** The stats of one influencer: one document per connected platform, in the order Instagram, YouTube, Facebook. */
  method SeedStats(u: User, now: int, draws: seq<real>) returns (stats: seq<StatsRecord>, used: nat)
    requires AreDraws(draws) && |draws| >= 3 * MaxPlatformDraws
    ensures forall r :: r in stats ==> SeededStats(r, u)
    ensures forall p :: IsConnected(u, p) <==> p in PlatformsOf(stats)
    ensures forall i, j :: 0 <= i < j < |stats| ==> stats[i].platform != stats[j].platform
    ensures used <= 3 * MaxPlatformDraws
  {
    stats, used := [], 0;
    stats, used := PlatformBlock(u, Instagram, now, draws, stats, used);
    stats, used := PlatformBlock(u, YouTube, now, draws, stats, used);
    stats, used := PlatformBlock(u, Facebook, now, draws, stats, used);
    forall p
      ensures IsConnected(u, p) <==> p in PlatformsOf(stats)
    {
      match p
      case Instagram =>
      case YouTube =>
      case Facebook =>
    }
  }

  /** `if (inf.connectedPlatforms?.<p>?.connected) { ... }`: a document for `p` when it is connected. */
  method PlatformBlock(u: User, p: Platform, now: int, draws: seq<real>, stats: seq<StatsRecord>, used: nat)
    returns (stats': seq<StatsRecord>, used': nat)
    requires AreDraws(draws) && used + MaxPlatformDraws <= |draws|
    requires forall x :: x in stats ==> SeededStats(x, u)
    requires forall i, j :: 0 <= i < j < |stats| ==> stats[i].platform != stats[j].platform
    requires p !in PlatformsOf(stats)
    ensures forall x :: x in stats' ==> SeededStats(x, u)
    ensures forall i, j :: 0 <= i < j < |stats'| ==> stats'[i].platform != stats'[j].platform
    ensures PlatformsOf(stats') == PlatformsOf(stats) + (if IsConnected(u, p) then {p} else {})
    ensures used <= used' <= used + MaxPlatformDraws
  {
    stats', used' := stats, used;
    if IsConnected(u, p) {
      var r, n := SeedPlatformStats(u, p, now, draws[used..]);
      stats' := AppendStats(stats, r, u);
      used' := used + n;
    }
  }

  // ---------------------------------------------------------------- brands

  function BrandEmail(i: nat): string {
    "brand" + JsText.NatToString(i) + "@example.com"
  }

  /** One pass of the brand loop (`i` counts from 1): company `i` of the list, a drawn industry. */
  function SeedBrand(i: nat, id: string, hashedPassword: string, r: real): (u: User)
    requires 1 <= i <= BrandCount && IsDraw(r)
    ensures u.role == Brand && u.companyName == Some(CompanyNames[i - 1])
    ensures u.industry.Some? && u.industry.value in Industries
  {
    var n := JsText.NatToString(i);
    User(
      id, BrandEmail(i), hashedPassword, Brand, "Brand Manager " + n,
      Some("https://i.pravatar.cc/150?img=" + JsText.NatToString(i + 30)), None, None, [], None, None, map[],
      Some(CompanyNames[i - 1]), Some(Industries[RandomIndex(r, |Industries|)]))
  }

  // ---------------------------------------------------------------- the script

  /** The influencer loop: profile `i` gets ObjectId `ids[i - 1]`. */
  method SeedInfluencers(ids: seq<string>, hashedPassword: string, draws: seq<real>) returns (influencers: seq<User>, used: nat)
    requires |ids| >= InfluencerCount
    requires AreDraws(draws) && |draws| >= InfluencerCount * MaxProfileDraws
    ensures |influencers| == InfluencerCount
    ensures forall i :: 0 <= i < InfluencerCount ==> SeededInfluencer(influencers[i]) && influencers[i].id == ids[i]
    ensures forall i :: 0 <= i < InfluencerCount ==> influencers[i].email == InfluencerEmail(i + 1)
    ensures used <= InfluencerCount * MaxProfileDraws
  {
    used := 0;
    influencers := [];
    for i := 1 to InfluencerCount + 1
      invariant |influencers| == i - 1
      invariant used <= (i - 1) * MaxProfileDraws
      invariant forall j :: 0 <= j < i - 1 ==> SeededInfluencer(influencers[j]) && influencers[j].id == ids[j]
      invariant forall j :: 0 <= j < i - 1 ==> influencers[j].email == InfluencerEmail(j + 1)
    {
      assert used + MaxProfileDraws <= |draws| by {
        assert (i - 1) * MaxProfileDraws + MaxProfileDraws <= InfluencerCount * MaxProfileDraws;
      }
      var u, n := SeedInfluencer(i, ids[i - 1], hashedPassword, draws[used..]);
      ghost var before := influencers;
      influencers := influencers + [u];
      forall j | 0 <= j < i
        ensures SeededInfluencer(influencers[j]) && influencers[j].id == ids[j] && influencers[j].email == InfluencerEmail(j + 1)
      {
        if j < i - 1 {
          assert influencers[j] == before[j];
        }
      }
      used := used + n;
    }
  }

  /** `stats` holds an Instagram document for the user `id`. */
  ghost predicate HasInstagramStats(stats: seq<StatsRecord>, id: string) {
    exists r :: r in stats && r.userId == id && r.platform == Instagram
  }

  /** The stats loop, over the influencers in creation order. */
  method SeedAllStats(influencers: seq<User>, now: int, draws: seq<real>) returns (stats: seq<StatsRecord>, used: nat)
    requires forall i :: 0 <= i < |influencers| ==> IsConnected(influencers[i], Instagram)
    requires AreDraws(draws) && |draws| >= |influencers| * 3 * MaxPlatformDraws
    ensures forall r :: r in stats ==> exists i :: 0 <= i < |influencers| && SeededStats(r, influencers[i])
    ensures forall i :: 0 <= i < |influencers| ==> HasInstagramStats(stats, influencers[i].id)
    ensures used <= |influencers| * 3 * MaxPlatformDraws
  {
    used := 0;
    stats := [];
    for i := 0 to |influencers|
      invariant used <= i * 3 * MaxPlatformDraws
      invariant forall r :: r in stats ==> exists j :: 0 <= j < i && SeededStats(r, influencers[j])
      invariant forall j :: 0 <= j < i ==> HasInstagramStats(stats, influencers[j].id)
    {
      assert used + 3 * MaxPlatformDraws <= |draws|;
      var s, n := SeedStats(influencers[i], now, draws[used..]);
      assert Instagram in PlatformsOf(s);
      var r :| r in s && r.platform == Instagram;
      assert SeededStats(r, influencers[i]);
      ghost var before := stats;
      stats := stats + s;
      assert r in stats;
      assert HasInstagramStats(stats, influencers[i].id);
      forall j | 0 <= j < i
        ensures HasInstagramStats(stats, influencers[j].id)
      {
        assert HasInstagramStats(before, influencers[j].id);
        var w :| w in before && w.userId == influencers[j].id && w.platform == Instagram;
        assert w in stats;
      }
      used := used + n;
    }
  }

  /** The brand loop: brand `i` gets ObjectId `ids[i - 1]` and company `i` of the list. */
  method SeedBrands(ids: seq<string>, hashedPassword: string, draws: seq<real>) returns (brands: seq<User>)
    requires |ids| >= BrandCount
    requires AreDraws(draws) && |draws| >= BrandCount
    ensures |brands| == BrandCount
    ensures forall i :: 0 <= i < BrandCount ==> brands[i].role == Brand && brands[i].id == ids[i]
    ensures forall i :: 0 <= i < BrandCount ==> brands[i].companyName == Some(CompanyNames[i])
  {
    brands := [];
    for i := 1 to BrandCount + 1
      invariant |brands| == i - 1
      invariant forall j :: 0 <= j < i - 1 ==> brands[j].role == Brand && brands[j].id == ids[j]
      invariant forall j :: 0 <= j < i - 1 ==> brands[j].companyName == Some(CompanyNames[j])
    {
      ghost var before := brands;
      brands := brands + [SeedBrand(i, ids[i - 1], hashedPassword, draws[i - 1])];
      forall j | 0 <= j < i
        ensures brands[j].role == Brand && brands[j].id == ids[j] && brands[j].companyName == Some(CompanyNames[j])
      {
        if j < i - 1 {
          assert brands[j] == before[j];
        }
      }
    }
  }

  /**
   * The whole script: `ids` are the ObjectIds the database would assign, the
   * 30 influencers' first, then the 10 brands'.
   */
  method Seed(ids: seq<string>, hashedPassword: string, now: int, draws: seq<real>)
    returns (influencers: seq<User>, stats: seq<StatsRecord>, brands: seq<User>)
    requires |ids| == InfluencerCount + BrandCount
    requires AreDraws(draws) && |draws| >= MaxSeedDraws
    ensures |influencers| == InfluencerCount && |brands| == BrandCount
    ensures forall i :: 0 <= i < InfluencerCount ==> SeededInfluencer(influencers[i]) && influencers[i].id == ids[i]
    ensures forall i :: 0 <= i < InfluencerCount ==> influencers[i].email == InfluencerEmail(i + 1)
    ensures forall i :: 0 <= i < BrandCount ==> brands[i].role == Brand && brands[i].id == ids[InfluencerCount + i]
    ensures forall i :: 0 <= i < BrandCount ==> brands[i].companyName == Some(CompanyNames[i])
    ensures forall r :: r in stats ==> exists i :: 0 <= i < InfluencerCount && SeededStats(r, influencers[i])
    ensures forall i :: 0 <= i < InfluencerCount ==> HasInstagramStats(stats, ids[i])
  {
    assert MaxSeedDraws == 5440 && MaxPlatformDraws == 57;
    var n1, n2;
    influencers, n1 := SeedInfluencers(ids, hashedPassword, draws);
    stats, n2 := SeedAllStats(influencers, now, draws[n1..]);
    brands := SeedBrands(ids[InfluencerCount..], hashedPassword, draws[n1 + n2..]);
  }
}
