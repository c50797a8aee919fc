/**
 * The influencer dashboard: loading the user's stats, connecting a platform
 * (the call, the reload and the local update of `connectedPlatforms`), and
 * the aggregates the page shows.
 */
module InfluencerDashboard {
  import opened Wrappers
  import opened Seqs
  import opened Randomness
  import opened Domain
  import opened Records
  import opened PostBatches

  // ------------------------------------------------------------ connected platforms

  /**
   * `{ ...connectedPlatforms, [p]: { ...connectedPlatforms?.[p], connected: true } }`:
   * a platform without an entry gets one with only `connected` set, which the
   * model writes with empty id and username.
   */
  function WithConnected(u: User, p: Platform): (v: User)
    ensures v == u.(connectedPlatforms := v.connectedPlatforms)
    ensures IsConnected(v, p)
    ensures p in u.connectedPlatforms ==> v.connectedPlatforms[p] == u.connectedPlatforms[p].(connected := true)
    ensures p !in u.connectedPlatforms ==> v.connectedPlatforms[p] == PlatformLink("", "", true)
    ensures forall q :: q != p ==> (q in v.connectedPlatforms <==> q in u.connectedPlatforms)
    ensures forall q :: q != p && q in u.connectedPlatforms ==> v.connectedPlatforms[q] == u.connectedPlatforms[q]
  {
    var link := if p in u.connectedPlatforms then u.connectedPlatforms[p] else PlatformLink("", "", false);
    u.(connectedPlatforms := u.connectedPlatforms[p := link.(connected := true)])
  }

  /** Connecting twice leaves the user as connecting once. */
  lemma WithConnectedIdempotent(u: User, p: Platform)
    ensures WithConnected(WithConnected(u, p), p) == WithConnected(u, p)
  {
    var once := WithConnected(u, p);
    var twice := WithConnected(once, p);
    assert twice.connectedPlatforms == once.connectedPlatforms;
  }

  /** Connecting never disconnects: every platform connected before stays connected. */
  lemma WithConnectedMonotone(u: User, p: Platform, q: Platform)
    requires IsConnected(u, q)
    ensures IsConnected(WithConnected(u, p), q)
  {
  }

  /** The page's state. `user` is the signed-in user of the auth context. */
  class Dashboard {
    var user: Option<User>
    var stats: seq<StatsRecord>
    var loading: bool
    var connecting: Option<Platform>

    constructor(signedIn: Option<User>)
      ensures user == signedIn && stats == [] && loading && connecting.None?
    {
      user := signedIn;
      stats := [];
      loading := true;
      connecting := None;
    }

    /**
     * `loadStats`: `fetched` is the `/stats/:userId` answer, `None` when the
     * request failed. Nothing happens without a user; without an id only the
     * spinner stops.
     */
    method LoadStats(fetched: Option<seq<StatsRecord>>)
      modifies this
      ensures user == old(user) && connecting == old(connecting)
      ensures old(user).None? ==> stats == old(stats) && loading == old(loading)
      ensures old(user).Some? ==> !loading
      ensures old(user).Some? && old(user).value.id != "" && fetched.Some? ==> stats == fetched.value
      ensures old(user).Some? && (old(user).value.id == "" || fetched.None?) ==> stats == old(stats)
    {
      if user.None? {
        return;
      }
      if user.value.id == "" {
        loading := false;
        return;
      }
      if fetched.Some? {
        stats := fetched.value;
      }
      loading := false;
    }

    /**
     * `connectPlatform(p)`: `connectOk` says whether the mock connect call
     * succeeded and `fetched` is what the reload then answers. On success the
     * stats are reloaded and the user marked connected on `p`; in every case
     * that gets past the id check, `connecting` ends as null.
     */
    method ConnectPlatform(p: Platform, connectOk: bool, fetched: Option<seq<StatsRecord>>)
      modifies this
      ensures old(user).None? || old(user).value.id == "" ==>
        user == old(user) && stats == old(stats) && loading == old(loading) && connecting == old(connecting)
      ensures old(user).Some? && old(user).value.id != "" ==> connecting.None?
      ensures old(user).Some? && old(user).value.id != "" && !connectOk ==>
        user == old(user) && stats == old(stats) && loading == old(loading)
      ensures old(user).Some? && old(user).value.id != "" && connectOk ==>
        && user == Some(WithConnected(old(user).value, p))
        && !loading
        && stats == (if fetched.Some? then fetched.value else old(stats))
    {
      if user.None? {
        return;
      }
      if user.value.id == "" {
        return;
      }
      connecting := Some(p);
      if connectOk {
        LoadStats(fetched);
        user := Some(WithConnected(user.value, p));
      }
      connecting := None;
    }
  }

  // ------------------------------------------------------------ aggregates

  /** `Math.round(sum / stats.length)`, and 0 for no stats. */
  function RoundedMean(stats: seq<StatsRecord>, f: StatsRecord -> int): (m: int)
    ensures |stats| == 0 ==> m == 0
  {
    if |stats| > 0 then Round(IntSumOf(stats, f) as real / |stats| as real) else 0
  }

  function AvgInfluenceScore(stats: seq<StatsRecord>): int {
    RoundedMean(stats, (s: StatsRecord) => s.analysis.influenceScore)
  }

  function AvgConfidence(stats: seq<StatsRecord>): int {
    RoundedMean(stats, (s: StatsRecord) => s.analysis.confidencePercent)
  }

  /** A rounded mean of values in [lo, hi] stays in [lo, hi]. */
  lemma RoundedMeanBounds(stats: seq<StatsRecord>, f: StatsRecord -> int, lo: int, hi: int)
    requires |stats| > 0
    requires forall i :: 0 <= i < |stats| ==> lo <= f(stats[i]) <= hi
    ensures lo <= RoundedMean(stats, f) <= hi
  {
    var sum := IntSumOf(stats, f);
    IntSumOfBounds(stats, f, lo, hi);
    CastProduct(|stats|, lo);
    CastProduct(|stats|, hi);
    QuotientBetween(sum as real, |stats| as real, lo as real, hi as real);
    RoundWithin(sum as real / |stats| as real, lo, hi);
  }

  /** With the engine's ranges, the shown averages are a score in [1, 100] and a confidence in [75, 95]. */
  lemma AveragesInRange(stats: seq<StatsRecord>)
    requires |stats| > 0
    requires forall i :: 0 <= i < |stats| ==>
      1 <= stats[i].analysis.influenceScore <= 100 && 75 <= stats[i].analysis.confidencePercent <= 95
    ensures 1 <= AvgInfluenceScore(stats) <= 100
    ensures 75 <= AvgConfidence(stats) <= 95
  {
    RoundedMeanBounds(stats, (s: StatsRecord) => s.analysis.influenceScore, 1, 100);
    RoundedMeanBounds(stats, (s: StatsRecord) => s.analysis.confidencePercent, 75, 95);
  }

  /** One element of `platformStats`. */
  datatype PlatformTotals = PlatformTotals(platform: Platform, likes: int, comments: int)

  /** `platformStats`: per stats entry, its platform and the likes and comments summed over its posts. */
  function PlatformStats(stats: seq<StatsRecord>): (r: seq<PlatformTotals>)
    ensures |r| == |stats|
    ensures forall i :: 0 <= i < |stats| ==>
      && r[i].platform == stats[i].platform
      && r[i].likes == IntSumOf(stats[i].posts, (p: Post) => p.likes)
      && r[i].comments == IntSumOf(stats[i].posts, (p: Post) => p.comments)
  {
    seq(|stats|, i requires 0 <= i < |stats| =>
      PlatformTotals(stats[i].platform,
                     IntSumOf(stats[i].posts, (p: Post) => p.likes),
                     IntSumOf(stats[i].posts, (p: Post) => p.comments)))
  }

  /** For a generated batch the totals lie between the batch's per-post bounds times its length. */
  lemma BatchTotalsBounds(c: BatchConfig, now: int, draws: seq<real>)
    requires WellFormed(c) && AreDraws(draws) && |draws| >= BatchDraws(c)
    ensures var posts := Batch(c, now, draws);
      && c.count * c.likesMin <= IntSumOf(posts, (p: Post) => p.likes) <= c.count * (c.likesMin + c.likesSpan - 1)
      && c.count * c.commentsMin <= IntSumOf(posts, (p: Post) => p.comments) <= c.count * (c.commentsMin + c.commentsSpan - 1)
  {
    var posts := Batch(c, now, draws);
    forall i | 0 <= i < |posts|
      ensures c.likesMin <= posts[i].likes <= c.likesMin + c.likesSpan - 1
      ensures c.commentsMin <= posts[i].comments <= c.commentsMin + c.commentsSpan - 1
    {
      BatchRanges(c, now, draws, i);
    }
    IntSumOfBounds(posts, (p: Post) => p.likes, c.likesMin, c.likesMin + c.likesSpan - 1);
    IntSumOfBounds(posts, (p: Post) => p.comments, c.commentsMin, c.commentsMin + c.commentsSpan - 1);
  }

  /** One point of `chartData`; the date stays a time in milliseconds. */
  datatype ChartPoint = ChartPoint(date: int, engagement: real)

  function PostPoints(posts: seq<Post>): (r: seq<ChartPoint>)
    ensures |r| == |posts|
    ensures forall j :: 0 <= j < |posts| ==> r[j] == ChartPoint(posts[j].date, posts[j].engagement)
  {
    seq(|posts|, j requires 0 <= j < |posts| => ChartPoint(posts[j].date, posts[j].engagement))
  }

  /** `chartData`: every post of every stats entry, entry by entry. */
  function ChartData(stats: seq<StatsRecord>): seq<ChartPoint> {
    if stats == [] then [] else ChartData(stats[..|stats| - 1]) + PostPoints(stats[|stats| - 1].posts)
  }

  /** The chart has one point per post. */
  lemma {:induction false} ChartDataLength(stats: seq<StatsRecord>)
    ensures |ChartData(stats)| == IntSumOf(stats, (s: StatsRecord) => |s.posts|)
  {
    if stats != [] {
      ChartDataLength(stats[..|stats| - 1]);
    }
  }

  /** One point of `terrainData`: its value and platform; the trigonometric placement is not modelled. */
  datatype TerrainPoint = TerrainPoint(value: real, platform: Platform)

  function TerrainPoints(s: StatsRecord): (r: seq<TerrainPoint>)
    ensures |r| == |Take(s.posts, 10)| && |r| <= 10
    ensures forall j :: 0 <= j < |r| ==> r[j] == TerrainPoint(s.posts[j].engagement, s.platform)
  {
    var top := Take(s.posts, 10);
    TakeIsPrefix(s.posts, 10);
    seq(|top|, j requires 0 <= j < |top| => TerrainPoint(top[j].engagement, s.platform))
  }

  /** `terrainData`: the first ten posts of each stats entry. */
  function TerrainData(stats: seq<StatsRecord>): seq<TerrainPoint> {
    if stats == [] then [] else TerrainData(stats[..|stats| - 1]) + TerrainPoints(stats[|stats| - 1])
  }

  /** At most ten points per platform, each labelled with a platform the stats cover. */
  lemma {:induction false} TerrainDataBounds(stats: seq<StatsRecord>)
    ensures |TerrainData(stats)| <= 10 * |stats|
    ensures |TerrainData(stats)| == IntSumOf(stats, (s: StatsRecord) => |Take(s.posts, 10)|)
    ensures forall t :: t in TerrainData(stats) ==> exists i :: 0 <= i < |stats| && stats[i].platform == t.platform
  {
    if stats != [] {
      var init := stats[..|stats| - 1];
      TerrainDataBounds(init);
      var last := TerrainPoints(stats[|stats| - 1]);
      forall t | t in TerrainData(stats)
        ensures exists i :: 0 <= i < |stats| && stats[i].platform == t.platform
      {
        if t in TerrainData(init) {
          var i :| 0 <= i < |init| && init[i].platform == t.platform;
          assert stats[i] == init[i];
        } else {
          assert t in last;
          assert stats[|stats| - 1].platform == t.platform;
        }
      }
    }
  }
}
