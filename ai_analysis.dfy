/**
 * The mock scoring engine `generateInfluenceStats`: from a post batch, a
 * follower count and a platform it derives the engagement rate, the
 * influence score, three audience distributions, campaign tags, a summary
 * and a confidence figure. Every `Math.random()` is the next supplied draw.
 */
module AiAnalysis {
  import opened Seqs
  import opened Randomness
  import opened Domain
  import JsText

  /** One entry of a demographic distribution: a percentage, or NaN when the raw weights summed to 0. */
  datatype Share = Percent(value: real) | NaN

  datatype Demographics = Demographics(
    age: map<string, Share>,
    location: map<string, Share>,
    interests: map<string, Share>)

  /** The record `generateInfluenceStats` returns. */
  datatype InfluenceStats = InfluenceStats(
    influenceScore: int,
    engagementRate: real,
    audienceDemographics: Demographics,
    campaignFitTags: seq<string>,
    aiSummary: string,
    confidencePercent: int)

  const AgeGroups: seq<string> := ["13-17", "18-24", "25-34", "35-44", "45+"]
  const Locations: seq<string> := ["United States", "United Kingdom", "India", "Canada", "Australia", "Other"]
  const Interests: seq<string> := ["Fashion", "Travel", "Food", "Tech", "Fitness", "Lifestyle", "Beauty"]
  const AllTags: seq<string> := ["micro-influencer", "macro-influencer", "travel", "fashion", "lifestyle", "niche", "authentic", "high-engagement"]

  /**
   * Draws one call consumes at most: score 1, age 5, location 6, interest
   * count 1, interests up to 5, tag count 1, tags up to 5, summary 1, confidence 1.
   */
  const MaxDraws: nat := 26

  // ---------------------------------------------------------------- engagement rate

  function PostEngagement(p: Post): real { p.engagement }

  /** The mean engagement of the batch over the follower count, as a percentage. */
  function EngagementRate(posts: seq<Post>, followers: int): (rate: real)
    requires |posts| > 0 && followers > 0
    ensures rate * (followers as real) * (|posts| as real) == 100.0 * SumOf(posts, PostEngagement)
  {
    var total := SumOf(posts, PostEngagement);
    var n := |posts| as real;
    var f := followers as real;
    var mean := total / n;
    assert mean * n == total;
    var rate := mean / f * 100.0;
    assert rate * f == mean * 100.0;
    rate
  }

  lemma EngagementRateNonNegative(posts: seq<Post>, followers: int)
    requires |posts| > 0 && followers > 0
    requires forall i :: 0 <= i < |posts| ==> posts[i].engagement >= 0.0
    ensures EngagementRate(posts, followers) >= 0.0
  {
    SumOfNonNegative(posts, PostEngagement);
    var rate := EngagementRate(posts, followers);
    var nf := (followers as real) * (|posts| as real);
    assert nf > 0.0;
  }

  /** `Math.round(x * 10) / 10`: the value kept to one decimal. */
  function RoundToTenth(x: real): real {
    Round(x * 10.0) as real / 10.0
  }

  /** The rate is reported to one decimal and differs from the exact rate by at most 0.05. */
  lemma RoundToTenthClose(x: real)
    ensures x - 0.05 < RoundToTenth(x) <= x + 0.05
    ensures RoundToTenth(x) * 10.0 == (RoundToTenth(x) * 10.0).Floor as real
  {
    RoundClose(x * 10.0);
  }

  // ---------------------------------------------------------------- influence score

  /** A follower tier: its base score is drawn uniformly from [low, low + width). */
  datatype Tier = Tier(low: real, width: real)

  /** The tiers with thresholds 1000, 10000 and 100000. */
  function TierOf(followers: int): Tier {
    if followers < 1000 then Tier(20.0, 10.0)
    else if followers < 10000 then Tier(30.0, 15.0)
    else if followers < 100000 then Tier(50.0, 20.0)
    else Tier(70.0, 20.0)
  }

  function TierBase(followers: int, r: real): real {
    TierOf(followers).low + r * TierOf(followers).width
  }

  function Clamp(x: real): real {
    if x > 100.0 then 100.0 else if x < 1.0 then 1.0 else x
  }

  /** The returned score: tier base plus the unrounded rate over 5, clamped to [1, 100], then rounded. */
  function ScoreOf(followers: int, rate: real, r: real): int {
    Round(Clamp(TierBase(followers, r) + rate / 5.0))
  }

  /** The score as the source computes it, one reassignment at a time. */
  method InfluenceScore(followers: int, rate: real, r: real) returns (score: int)
    requires IsDraw(r)
    ensures score == ScoreOf(followers, rate, r)
    ensures 1 <= score <= 100
  {
    var s := 0.0;
    if followers < 1000 {
      s := 20.0 + r * 10.0;
    } else if followers < 10000 {
      s := 30.0 + r * 15.0;
    } else if followers < 100000 {
      s := 50.0 + r * 20.0;
    } else {
      s := 70.0 + r * 20.0;
    }
    s := s + rate / 5.0;
    s := if 1.0 > s then 1.0 else s;
    s := if 100.0 < s then 100.0 else s;
    score := Round(s);
    ScoreBounds(followers, rate, r);
  }

  /** Every score is a whole number in [1, 100], whatever the rate. */
  lemma ScoreBounds(followers: int, rate: real, r: real)
    ensures 1 <= ScoreOf(followers, rate, r) <= 100
  {
    RoundWithin(Clamp(TierBase(followers, r) + rate / 5.0), 1, 100);
  }

  /** The base of each tier lies in its half-open range. */
  lemma TierBaseRange(followers: int, r: real)
    requires IsDraw(r)
    ensures TierOf(followers).low <= TierBase(followers, r) < TierOf(followers).low + TierOf(followers).width
  {
    var t := TierOf(followers);
    assert r * t.width < t.width by {
      assert r * t.width < 1.0 * t.width;
    }
  }

  /** No base score falls in [45, 50): the 1000-9999 tier tops out below 45, the next starts at 50. */
  lemma TierBaseGap(followers: int, r: real)
    requires IsDraw(r)
    ensures !(45.0 <= TierBase(followers, r) < 50.0)
  {
    TierBaseRange(followers, r);
  }

  /** A higher tier never draws a lower base than a lower tier, whatever the two draws. */
  lemma TierOrder(f1: int, r1: real, f2: int, r2: real)
    requires IsDraw(r1) && IsDraw(r2)
    requires f1 <= f2 && TierOf(f1) != TierOf(f2)
    ensures TierBase(f1, r1) <= TierBase(f2, r2)
  {
    TierBaseRange(f1, r1);
    TierBaseRange(f2, r2);
  }

  /** For the same followers and draw, a higher engagement rate never lowers the score. */
  lemma ScoreMonotoneInRate(followers: int, rate1: real, rate2: real, r: real)
    requires rate1 <= rate2
    ensures ScoreOf(followers, rate1, r) <= ScoreOf(followers, rate2, r)
  {
    RoundMonotone(Clamp(TierBase(followers, r) + rate1 / 5.0), Clamp(TierBase(followers, r) + rate2 / 5.0));
  }

  /** One post with engagement 200 and 1000 followers: rate 20.0, score in [34, 49]. */
  lemma ScoreExample(posts: seq<Post>, r: real)
    requires |posts| == 1 && posts[0].engagement == 200.0 && IsDraw(r)
    ensures EngagementRate(posts, 1000) == 20.0
    ensures 34 <= ScoreOf(1000, EngagementRate(posts, 1000), r) <= 49
  {
    assert SumOf(posts, PostEngagement) == 200.0 by {
      assert posts[..0] == [];
    }
    TierBaseRange(1000, r);
    RoundWithin(Clamp(TierBase(1000, r) + 4.0), 34, 49);
  }

  // ---------------------------------------------------------------- distributions

  /** `raw / total * 100`, which JavaScript evaluates to NaN when both are 0. */
  function ShareOf(raw: real, total: real): Share {
    if total == 0.0 then NaN else Percent(raw / total * 100.0)
  }

  /** The percentage of a share, 0 for NaN. */
  function ShareValue(s: Share): real {
    if s.Percent? then s.value else 0.0
  }

  /** The keys of `dist` are exactly the labels. */
  ghost predicate HasKeys<V>(dist: map<string, V>, labels: seq<string>) {
    forall l :: l in dist <==> l in labels
  }

  /** `dist` maps each label to the share of the weight at the same position. */
  ghost predicate SharesOf(dist: map<string, Share>, labels: seq<string>, weights: seq<real>, total: real) {
    && |labels| == |weights|
    && HasKeys(dist, labels)
    && forall i :: 0 <= i < |labels| ==> labels[i] in dist && dist[labels[i]] == ShareOf(weights[i], total)
  }

  /** The sum of the shares of `labels` in `dist`. */
  function ShareTotal(labels: seq<string>, dist: map<string, Share>): real
    requires forall i :: 0 <= i < |labels| ==> labels[i] in dist
  {
    if labels == [] then 0.0
    else ShareTotal(labels[..|labels| - 1], dist) + ShareValue(dist[labels[|labels| - 1]])
  }

  /** Every label has a non-negative percentage, and the percentages sum to 100. */
  ghost predicate Normalised(dist: map<string, Share>, labels: seq<string>) {
    && HasKeys(dist, labels)
    && (forall l :: l in dist ==> dist[l].Percent? && dist[l].value >= 0.0)
    && ShareTotal(labels, dist) == 100.0
  }

  /** Every label's share is NaN: the raw weights summed to 0. */
  ghost predicate AllNaN(dist: map<string, Share>, labels: seq<string>) {
    && HasKeys(dist, labels)
    && (forall l :: l in dist ==> dist[l] == NaN)
  }

  /** The raw weights `offset + Math.random() * scale`, one per draw. */
  function Weights(draws: seq<real>, offset: real, scale: real): (w: seq<real>)
    ensures |w| == |draws|
    ensures forall i :: 0 <= i < |draws| ==> w[i] == offset + draws[i] * scale
  {
    if draws == [] then [] else Weights(draws[..|draws| - 1], offset, scale) + [offset + draws[|draws| - 1] * scale]
  }

  /** `labels.forEach(l => d[l] = offset + Math.random() * scale)`. */
  method FillWeights(labels: seq<string>, draws: seq<real>, offset: real, scale: real) returns (weights: map<string, real>)
    requires |labels| == |draws| && NoDuplicates(labels)
    ensures HasKeys(weights, labels)
    ensures forall j :: 0 <= j < |labels| ==> labels[j] in weights && weights[labels[j]] == Weights(draws, offset, scale)[j]
  {
    weights := map[];
    for i := 0 to |labels|
      invariant HasKeys(weights, labels[..i])
      invariant forall j :: 0 <= j < i ==> labels[j] in weights && weights[labels[j]] == offset + draws[j] * scale
    {
      assert labels[..i + 1] == labels[..i] + [labels[i]];
      weights := weights[labels[i] := offset + draws[i] * scale];
    }
    assert labels[..|labels|] == labels;
  }

  /** `Object.values(d).reduce((a, b) => a + b, 0)`, the values taken in label order. */
  method SumValues(labels: seq<string>, weights: map<string, real>, raw: seq<real>) returns (total: real)
    requires |labels| == |raw|
    requires forall j :: 0 <= j < |labels| ==> labels[j] in weights && weights[labels[j]] == raw[j]
    ensures total == Sum(raw)
  {
    total := 0.0;
    for i := 0 to |labels|
      invariant total == Sum(raw[..i])
    {
      assert raw[..i + 1][..i] == raw[..i];
      total := total + weights[labels[i]];
    }
    assert raw[..|raw|] == raw;
  }

  /** `Object.keys(d).forEach(k => d[k] = (d[k] / total) * 100)`. */
  method Normalise(labels: seq<string>, weights: map<string, real>, total: real) returns (dist: map<string, Share>)
    requires forall j :: 0 <= j < |labels| ==> labels[j] in weights
    ensures HasKeys(dist, labels)
    ensures forall j :: 0 <= j < |labels| ==> labels[j] in dist && dist[labels[j]] == ShareOf(weights[labels[j]], total)
  {
    dist := map[];
    for i := 0 to |labels|
      invariant HasKeys(dist, labels[..i])
      invariant forall j :: 0 <= j < i ==> labels[j] in dist && dist[labels[j]] == ShareOf(weights[labels[j]], total)
    {
      assert labels[..i + 1] == labels[..i] + [labels[i]];
      dist := dist[labels[i] := ShareOf(weights[labels[i]], total)];
    }
    assert labels[..|labels|] == labels;
  }

  /**
   * One demographic block: fills a dictionary with one raw weight per label,
   * drawn in label order, sums it, then rewrites each entry as its share of the sum.
   */
  method Distribution(labels: seq<string>, draws: seq<real>, offset: real, scale: real) returns (dist: map<string, Share>)
    requires |labels| == |draws| && NoDuplicates(labels)
    ensures dist == DistributionOf(labels, draws, offset, scale)
    ensures SharesOf(dist, labels, Weights(draws, offset, scale), Sum(Weights(draws, offset, scale)))
  {
    var weights := FillWeights(labels, draws, offset, scale);
    var total := SumValues(labels, weights, Weights(draws, offset, scale));
    dist := Normalise(labels, weights, total);
    SharesUnique(dist, labels, Weights(draws, offset, scale), total);
  }

  /** A demographic block as a value: the labels mapped to their shares of the drawn weights. */
  function DistributionOf(labels: seq<string>, draws: seq<real>, offset: real, scale: real): map<string, Share>
    requires |labels| == |draws|
  {
    Shares(labels, Weights(draws, offset, scale), Sum(Weights(draws, offset, scale)))
  }

  /** The dictionary with each label set to the share of the weight at its position, in label order. */
  function Shares(labels: seq<string>, weights: seq<real>, total: real): map<string, Share>
    requires |labels| == |weights|
  {
    if labels == [] then map[]
    else Shares(labels[..|labels| - 1], weights[..|weights| - 1], total)[labels[|labels| - 1] := ShareOf(weights[|weights| - 1], total)]
  }

  /** For distinct labels, `Shares` holds exactly the labels, each with the share of its own weight. */
  lemma {:induction false} SharesMeaning(labels: seq<string>, weights: seq<real>, total: real)
    requires |labels| == |weights| && NoDuplicates(labels)
    ensures SharesOf(Shares(labels, weights, total), labels, weights, total)
  {
    if labels != [] {
      var n := |labels| - 1;
      var init := labels[..n];
      assert NoDuplicates(init) by {
        forall i, j | 0 <= i < j < n
          ensures init[i] != init[j]
        {
          assert init[i] == labels[i] && init[j] == labels[j];
        }
      }
      SharesMeaning(init, weights[..n], total);
      var dist := Shares(labels, weights, total);
      forall l
        ensures l in dist <==> l in labels
      {
        assert l in labels <==> l in init || l == labels[n] by {
          assert labels == init + [labels[n]];
        }
      }
      forall i | 0 <= i < |labels|
        ensures labels[i] in dist && dist[labels[i]] == ShareOf(weights[i], total)
      {
        if i < n {
          assert init[i] == labels[i] && weights[..n][i] == weights[i];
          assert labels[i] != labels[n];
        }
      }
    }
  }

  /** A dictionary that gives each of the distinct labels the share of its weight, and has no other key, is `Shares`. */
  lemma SharesUnique(dist: map<string, Share>, labels: seq<string>, weights: seq<real>, total: real)
    requires NoDuplicates(labels) && SharesOf(dist, labels, weights, total)
    ensures dist == Shares(labels, weights, total)
  {
    var s := Shares(labels, weights, total);
    SharesMeaning(labels, weights, total);
    assert dist.Keys == s.Keys;
    forall l | l in dist
      ensures dist[l] == s[l]
    {
      var j :| 0 <= j < |labels| && labels[j] == l;
    }
  }

  lemma {:induction false} SumScaled(xs: seq<real>, c: real)
    ensures Sum(Weights(xs, 0.0, c)) == Sum(xs) * c
  {
    if xs != [] {
      SumScaled(xs[..|xs| - 1], c);
      assert Weights(xs, 0.0, c)[..|xs| - 1] == Weights(xs[..|xs| - 1], 0.0, c);
    }
  }

  lemma {:induction false} SumNonNegative(xs: seq<real>)
    requires forall i :: 0 <= i < |xs| ==> xs[i] >= 0.0
    ensures Sum(xs) >= 0.0
    ensures Sum(xs) == 0.0 <==> forall i :: 0 <= i < |xs| ==> xs[i] == 0.0
  {
    if xs != [] {
      SumNonNegative(xs[..|xs| - 1]);
    }
  }

  /** The total of shares `weights[i] * c` is the sum of the weights times `c`. */
  lemma {:induction false} ShareTotalScaled(labels: seq<string>, dist: map<string, Share>, weights: seq<real>, c: real)
    requires |labels| == |weights|
    requires forall i :: 0 <= i < |labels| ==> labels[i] in dist && dist[labels[i]] == Percent(weights[i] * c)
    ensures ShareTotal(labels, dist) == Sum(weights) * c
  {
    if labels != [] {
      ShareTotalScaled(labels[..|labels| - 1], dist, weights[..|weights| - 1], c);
    }
  }

  lemma PercentOf(w: real, total: real)
    requires total > 0.0
    ensures w / total * 100.0 == w * (100.0 / total)
    ensures w >= 0.0 ==> w / total * 100.0 >= 0.0
  {
  }

  lemma Cancel(total: real)
    requires total > 0.0
    ensures total * (100.0 / total) == 100.0
  {
  }

  /** The shares of weights with a positive sum add up to 100. */
  lemma SharesTotal(dist: map<string, Share>, labels: seq<string>, weights: seq<real>, total: real)
    requires |labels| == |weights| && total == Sum(weights) && total > 0.0
    requires forall i :: 0 <= i < |labels| ==> labels[i] in dist && dist[labels[i]] == ShareOf(weights[i], total)
    ensures ShareTotal(labels, dist) == 100.0
  {
    var c := 100.0 / total;
    PercentShares(dist, labels, weights, total);
    ShareTotalScaled(labels, dist, weights, c);
    Cancel(total);
  }

  /** With a positive total, every share is the weight times `100 / total`. */
  lemma PercentShares(dist: map<string, Share>, labels: seq<string>, weights: seq<real>, total: real)
    requires |labels| == |weights| && total > 0.0
    requires forall i :: 0 <= i < |labels| ==> labels[i] in dist && dist[labels[i]] == ShareOf(weights[i], total)
    ensures forall i :: 0 <= i < |labels| ==> labels[i] in dist && dist[labels[i]] == Percent(weights[i] * (100.0 / total))
  {
    forall i | 0 <= i < |labels|
      ensures labels[i] in dist && dist[labels[i]] == Percent(weights[i] * (100.0 / total))
    {
      PercentOf(weights[i], total);
    }
  }

  /** Normalising non-negative weights whose sum is positive gives non-negative percentages summing to 100. */
  lemma NormalisedShares(dist: map<string, Share>, labels: seq<string>, weights: seq<real>)
    requires SharesOf(dist, labels, weights, Sum(weights))
    requires forall i :: 0 <= i < |weights| ==> weights[i] >= 0.0
    requires Sum(weights) > 0.0
    ensures Normalised(dist, labels)
  {
    SharesTotal(dist, labels, weights, Sum(weights));
    forall l | l in dist
      ensures dist[l].Percent? && dist[l].value >= 0.0
    {
      var j :| 0 <= j < |labels| && labels[j] == l;
      PercentOf(weights[j], Sum(weights));
    }
  }

  /** When the weights sum to 0, every share is `0 / 0`, which is NaN. */
  lemma UndefinedShares(dist: map<string, Share>, labels: seq<string>, weights: seq<real>)
    requires SharesOf(dist, labels, weights, Sum(weights))
    requires Sum(weights) == 0.0
    ensures AllNaN(dist, labels)
  {
    forall l | l in dist
      ensures dist[l] == NaN
    {
      var j :| 0 <= j < |labels| && labels[j] == l;
    }
  }

  /** Weights drawn as `draw * scale` sum to more than 0 exactly when some draw is non-zero. */
  lemma ScaledWeightsSum(draws: seq<real>, scale: real)
    requires AreDraws(draws) && scale > 0.0
    ensures forall i :: 0 <= i < |draws| ==> Weights(draws, 0.0, scale)[i] >= 0.0
    ensures Sum(Weights(draws, 0.0, scale)) >= 0.0
    ensures Sum(Weights(draws, 0.0, scale)) > 0.0 <==> exists i :: 0 <= i < |draws| && draws[i] > 0.0
  {
    ScaledWeightsNonNegative(draws, scale);
    DrawsSumPositive(draws);
    ScaledSumSign(draws, scale);
  }

  lemma ScaledSumSign(draws: seq<real>, scale: real)
    requires Sum(draws) >= 0.0 && scale > 0.0
    ensures Sum(Weights(draws, 0.0, scale)) >= 0.0
    ensures Sum(Weights(draws, 0.0, scale)) > 0.0 <==> Sum(draws) > 0.0
  {
    SumScaled(draws, scale);
    ScaledSign(Sum(draws), scale);
  }

  lemma ScaledWeightsNonNegative(draws: seq<real>, scale: real)
    requires AreDraws(draws) && scale > 0.0
    ensures forall i :: 0 <= i < |draws| ==> Weights(draws, 0.0, scale)[i] >= 0.0
  {
    var w := Weights(draws, 0.0, scale);
    forall i | 0 <= i < |draws|
      ensures w[i] >= 0.0
    {
      ScaledSign(draws[i], scale);
    }
  }

  /** Draws sum to more than 0 exactly when one of them is non-zero. */
  lemma DrawsSumPositive(draws: seq<real>)
    requires AreDraws(draws)
    ensures Sum(draws) >= 0.0
    ensures Sum(draws) > 0.0 <==> exists i :: 0 <= i < |draws| && draws[i] > 0.0
  {
    SumNonNegative(draws);
  }

  lemma ScaledSign(x: real, c: real)
    requires x >= 0.0 && c > 0.0
    ensures x * c >= 0.0 && (x * c > 0.0 <==> x > 0.0)
  {
  }

  /** A distribution of `draw * scale` weights is normalised when some draw is non-zero, and NaN throughout otherwise. */
  lemma DrawnShares(dist: map<string, Share>, labels: seq<string>, draws: seq<real>, scale: real)
    requires AreDraws(draws) && scale > 0.0
    requires SharesOf(dist, labels, Weights(draws, 0.0, scale), Sum(Weights(draws, 0.0, scale)))
    ensures (exists i :: 0 <= i < |draws| && draws[i] > 0.0) ==> Normalised(dist, labels)
    ensures (forall i :: 0 <= i < |draws| ==> draws[i] == 0.0) ==> AllNaN(dist, labels)
  {
    var w := Weights(draws, 0.0, scale);
    ScaledWeightsSum(draws, scale);
    if exists i :: 0 <= i < |draws| && draws[i] > 0.0 {
      NormalisedShares(dist, labels, w);
    } else {
      UndefinedShares(dist, labels, w);
    }
  }

  /** Interest weights lie in [20, 50), so a non-empty selection has a positive sum. */
  lemma {:induction false} InterestWeightsPositive(draws: seq<real>)
    requires AreDraws(draws) && |draws| > 0
    ensures forall i :: 0 <= i < |draws| ==> Weights(draws, 20.0, 30.0)[i] >= 0.0
    ensures Sum(Weights(draws, 20.0, 30.0)) >= 20.0
  {
    var w := Weights(draws, 20.0, 30.0);
    if |draws| > 1 {
      InterestWeightsPositive(draws[..|draws| - 1]);
      assert w[..|w| - 1] == Weights(draws[..|draws| - 1], 20.0, 30.0);
    } else {
      assert w[..0] == [];
    }
  }

  // ---------------------------------------------------------------- draw layout

  /** `3 + Math.floor(Math.random() * 3)` interests are selected, from the draw after the location draws. */
  function InterestCount(draws: seq<real>): (k: nat)
    requires AreDraws(draws) && |draws| >= MaxDraws
    ensures 3 <= k <= 5
  {
    3 + RandomIndex(draws[12], 3)
  }

  /** `2 + Math.floor(Math.random() * 4)` tags are drawn, from the draw after the interest weights. */
  function TagCount(draws: seq<real>): (n: nat)
    requires AreDraws(draws) && |draws| >= MaxDraws
    ensures 2 <= n <= 5
  {
    2 + RandomIndex(draws[13 + InterestCount(draws)], 4)
  }

  /** Where the tag draws start: after score, age, location, the interest count, the interests and the tag count. */
  function TagStart(draws: seq<real>): (i: nat)
    requires AreDraws(draws) && |draws| >= MaxDraws
    ensures i + TagCount(draws) + 2 <= MaxDraws
  {
    14 + InterestCount(draws)
  }

  lemma LabelsDistinct()
    ensures NoDuplicates(AgeGroups) && NoDuplicates(Locations) && NoDuplicates(Interests)
  {
  }

  /** The first `k` interests are distinct. */
  lemma InterestPrefixDistinct(k: nat)
    requires k <= |Interests|
    ensures NoDuplicates(Interests[..k])
  {
    LabelsDistinct();
    forall i, j | 0 <= i < j < k
      ensures Interests[..k][i] != Interests[..k][j]
    {
      assert Interests[..k][i] == Interests[i] && Interests[..k][j] == Interests[j];
    }
  }

  /** The age block gives each group its share of a `Math.random() * 30` weight; normalised unless draws 1-5 are all 0. */
  lemma AgeShares(draws: seq<real>)
    requires AreDraws(draws) && |draws| >= MaxDraws
    ensures SharesOf(DistributionOf(AgeGroups, draws[1..6], 0.0, 30.0), AgeGroups,
      Weights(draws[1..6], 0.0, 30.0), Sum(Weights(draws[1..6], 0.0, 30.0)))
    ensures (exists i :: 1 <= i < 6 && draws[i] > 0.0) ==> Normalised(DistributionOf(AgeGroups, draws[1..6], 0.0, 30.0), AgeGroups)
    ensures (forall i :: 1 <= i < 6 ==> draws[i] == 0.0) ==> AllNaN(DistributionOf(AgeGroups, draws[1..6], 0.0, 30.0), AgeGroups)
  {
    LabelsDistinct();
    var ageDraws := draws[1..6];
    SharesMeaning(AgeGroups, Weights(ageDraws, 0.0, 30.0), Sum(Weights(ageDraws, 0.0, 30.0)));
    DrawnShares(DistributionOf(AgeGroups, ageDraws, 0.0, 30.0), AgeGroups, ageDraws, 30.0);
    if exists i :: 1 <= i < 6 && draws[i] > 0.0 {
      var i :| 1 <= i < 6 && draws[i] > 0.0;
      assert ageDraws[i - 1] > 0.0;
    }
  }

  /** The location block gives each location its share of a `Math.random() * 25` weight; normalised unless draws 6-11 are all 0. */
  lemma LocationShares(draws: seq<real>)
    requires AreDraws(draws) && |draws| >= MaxDraws
    ensures SharesOf(DistributionOf(Locations, draws[6..12], 0.0, 25.0), Locations,
      Weights(draws[6..12], 0.0, 25.0), Sum(Weights(draws[6..12], 0.0, 25.0)))
    ensures (exists i :: 6 <= i < 12 && draws[i] > 0.0) ==> Normalised(DistributionOf(Locations, draws[6..12], 0.0, 25.0), Locations)
    ensures (forall i :: 6 <= i < 12 ==> draws[i] == 0.0) ==> AllNaN(DistributionOf(Locations, draws[6..12], 0.0, 25.0), Locations)
  {
    LabelsDistinct();
    var locDraws := draws[6..12];
    SharesMeaning(Locations, Weights(locDraws, 0.0, 25.0), Sum(Weights(locDraws, 0.0, 25.0)));
    DrawnShares(DistributionOf(Locations, locDraws, 0.0, 25.0), Locations, locDraws, 25.0);
    if exists i :: 6 <= i < 12 && draws[i] > 0.0 {
      var i :| 6 <= i < 12 && draws[i] > 0.0;
      assert locDraws[i - 6] > 0.0;
    }
  }

  /** The interest block gives each chosen interest its share of a `20 + Math.random() * 30` weight, always normalised. */
  lemma InterestShares(draws: seq<real>)
    requires AreDraws(draws) && |draws| >= MaxDraws
    ensures var k := InterestCount(draws);
      SharesOf(DistributionOf(Interests[..k], draws[13..13 + k], 20.0, 30.0), Interests[..k],
        Weights(draws[13..13 + k], 20.0, 30.0), Sum(Weights(draws[13..13 + k], 20.0, 30.0)))
    ensures var k := InterestCount(draws);
      Normalised(DistributionOf(Interests[..k], draws[13..13 + k], 20.0, 30.0), Interests[..k])
  {
    var k := InterestCount(draws);
    InterestPrefixDistinct(k);
    var interestDraws := draws[13..13 + k];
    assert AreDraws(interestDraws) by {
      forall i | 0 <= i < k
        ensures IsDraw(interestDraws[i])
      {
        assert interestDraws[i] == draws[13 + i];
      }
    }
    var w := Weights(interestDraws, 20.0, 30.0);
    SharesMeaning(Interests[..k], w, Sum(w));
    InterestWeightsPositive(interestDraws);
    NormalisedShares(DistributionOf(Interests[..k], interestDraws, 20.0, 30.0), Interests[..k], w);
  }

  /** The age block: one `Math.random() * 30` weight per age group from draws 1-5, normalised. */
  method AgeDistribution(draws: seq<real>) returns (age: map<string, Share>)
    requires AreDraws(draws) && |draws| >= MaxDraws
    ensures age == DistributionOf(AgeGroups, draws[1..6], 0.0, 30.0)
  {
    LabelsDistinct();
    age := Distribution(AgeGroups, draws[1..6], 0.0, 30.0);
  }

  /** The location block: one `Math.random() * 25` weight per location from draws 6-11, normalised. */
  method LocationDistribution(draws: seq<real>) returns (location: map<string, Share>)
    requires AreDraws(draws) && |draws| >= MaxDraws
    ensures location == DistributionOf(Locations, draws[6..12], 0.0, 25.0)
  {
    LabelsDistinct();
    location := Distribution(Locations, draws[6..12], 0.0, 25.0);
  }

  /**
   * The interest block: the first `k` interests, `k` drawn at position 12,
   * each with a `20 + Math.random() * 30` weight from the next `k` draws, normalised.
   */
  method InterestDistribution(draws: seq<real>) returns (interests: map<string, Share>)
    requires AreDraws(draws) && |draws| >= MaxDraws
    ensures interests == DistributionOf(Interests[..InterestCount(draws)], draws[13..13 + InterestCount(draws)], 20.0, 30.0)
  {
    var k := InterestCount(draws);
    InterestPrefixDistinct(k);
    interests := Distribution(Interests[..k], draws[13..13 + k], 20.0, 30.0);
  }

  // ---------------------------------------------------------------- summary and confidence

  const SummaryAuthentic: string := "Strong engagement metrics with authentic audience connection. Ideal for lifestyle brands."
  const SummaryReachLead: string := "High-quality content creator with dedicated following. Excellent reach in "
  const SummaryReachTail: string := " niche."
  const SummaryGrowing: string := "Growing influencer with promising engagement rates. Great for early-stage campaigns."
  const SummaryEstablished: string := "Established creator with impressive audience demographics. Perfect for brand partnerships."

  /** The four summary templates; only the second interpolates the platform. */
  function Summaries(platform: Platform): (s: seq<string>)
    ensures |s| == 4
  {
    [SummaryAuthentic, SummaryReachLead + PlatformName(platform) + SummaryReachTail, SummaryGrowing, SummaryEstablished]
  }

  /** Templates other than the second read the same for every platform; the second contains the platform name. */
  lemma SummaryInterpolation(p: Platform, q: Platform)
    ensures Summaries(p)[0] == Summaries(q)[0]
    ensures Summaries(p)[2] == Summaries(q)[2]
    ensures Summaries(p)[3] == Summaries(q)[3]
    ensures JsText.Includes(Summaries(p)[1], PlatformName(p))
  {
    JsText.IncludesMiddle(SummaryReachLead, PlatformName(p), SummaryReachTail);
  }

  /** `Math.round(75 + Math.random() * 20)`. */
  function Confidence(r: real): int {
    Round(75.0 + r * 20.0)
  }

  /** The confidence is a whole number in [75, 95]; both ends occur. */
  lemma ConfidenceRange(r: real)
    requires IsDraw(r)
    ensures 75 <= Confidence(r) <= 95
    ensures Confidence(0.0) == 75 && Confidence(0.99) == 95
  {
    assert r * 20.0 < 20.0 by {
      assert r * 20.0 < 1.0 * 20.0;
    }
    RoundWithin(75.0 + r * 20.0, 75, 95);
  }

  // ---------------------------------------------------------------- the engine

  /** The tag block: `TagCount` tags drawn from the vocabulary, duplicates dropped. */
  method CampaignFitTags(draws: seq<real>) returns (tags: seq<string>)
    requires AreDraws(draws) && |draws| >= MaxDraws
    ensures tags == TagsOf(draws)
    ensures NoDuplicates(tags)
    ensures 1 <= |tags| <= TagCount(draws)
    ensures forall t :: t in tags ==> t in AllTags
  {
    var numTags := TagCount(draws);
    var start := TagStart(draws);
    tags := DrawDistinct(AllTags, draws[start..], numTags);
    assert draws[start..][..numTags] == draws[start..start + numTags];
  }

  /** The three audience blocks the engine draws from positions 1-12 and 13 onwards. */
  function Audience(draws: seq<real>): Demographics
    requires AreDraws(draws) && |draws| >= MaxDraws
  {
    var k := InterestCount(draws);
    Demographics(
      DistributionOf(AgeGroups, draws[1..6], 0.0, 30.0),
      DistributionOf(Locations, draws[6..12], 0.0, 25.0),
      DistributionOf(Interests[..k], draws[13..13 + k], 20.0, 30.0))
  }

  /** The number of draws one call consumes: everything up to the tags, then the summary and the confidence. */
  function DrawsUsed(draws: seq<real>): (n: nat)
    requires AreDraws(draws) && |draws| >= MaxDraws
    ensures 21 <= n <= MaxDraws
  {
    TagStart(draws) + TagCount(draws) + 2
  }

  /** The record the engine returns for the given batch, follower count, platform and draws. */
  function InfluenceStatsOf(posts: seq<Post>, followers: int, platform: Platform, draws: seq<real>): InfluenceStats
    requires |posts| > 0 && followers > 0
    requires AreDraws(draws) && |draws| >= MaxDraws
  {
    var rate := EngagementRate(posts, followers);
    InfluenceStats(
      ScoreOf(followers, rate, draws[0]),
      RoundToTenth(rate),
      Audience(draws),
      TagsOf(draws),
      Summaries(platform)[RandomIndex(draws[DrawsUsed(draws) - 2], 4)],
      Confidence(draws[DrawsUsed(draws) - 1]))
  }

  /** The campaign tags: `TagCount` picks from the vocabulary, repeats dropped. */
  function TagsOf(draws: seq<real>): seq<string>
    requires AreDraws(draws) && |draws| >= MaxDraws
  {
    Dedup(Picks(AllTags, draws[TagStart(draws)..TagStart(draws) + TagCount(draws)]))
  }

  /**
   * Each audience block gives every label its share of the weight drawn for
   * it; age and location are normalised when one of their draws is non-zero
   * and NaN throughout otherwise; the interests are always normalised.
   */
  lemma AudienceProperties(draws: seq<real>)
    requires AreDraws(draws) && |draws| >= MaxDraws
    ensures SharesOf(Audience(draws).age, AgeGroups,
      Weights(draws[1..6], 0.0, 30.0), Sum(Weights(draws[1..6], 0.0, 30.0)))
    ensures SharesOf(Audience(draws).location, Locations,
      Weights(draws[6..12], 0.0, 25.0), Sum(Weights(draws[6..12], 0.0, 25.0)))
    ensures SharesOf(Audience(draws).interests, Interests[..InterestCount(draws)],
      Weights(draws[13..13 + InterestCount(draws)], 20.0, 30.0),
      Sum(Weights(draws[13..13 + InterestCount(draws)], 20.0, 30.0)))
    ensures (exists i :: 1 <= i < 6 && draws[i] > 0.0) ==> Normalised(Audience(draws).age, AgeGroups)
    ensures (forall i :: 1 <= i < 6 ==> draws[i] == 0.0) ==> AllNaN(Audience(draws).age, AgeGroups)
    ensures (exists i :: 6 <= i < 12 && draws[i] > 0.0) ==> Normalised(Audience(draws).location, Locations)
    ensures (forall i :: 6 <= i < 12 ==> draws[i] == 0.0) ==> AllNaN(Audience(draws).location, Locations)
    ensures Normalised(Audience(draws).interests, Interests[..InterestCount(draws)])
  {
    AgeShares(draws);
    LocationShares(draws);
    InterestShares(draws);
  }

  /**
   * The record's score is a whole number in [1, 100], its summary one of the
   * four templates, its tags 1 to `TagCount` distinct vocabulary entries and
   * its confidence a whole number in [75, 95].
   */
  lemma InfluenceStatsProperties(posts: seq<Post>, followers: int, platform: Platform, draws: seq<real>)
    requires |posts| > 0 && followers > 0
    requires AreDraws(draws) && |draws| >= MaxDraws
    ensures 1 <= InfluenceStatsOf(posts, followers, platform, draws).influenceScore <= 100
    ensures 75 <= InfluenceStatsOf(posts, followers, platform, draws).confidencePercent <= 95
    ensures InfluenceStatsOf(posts, followers, platform, draws).aiSummary in Summaries(platform)
    ensures NoDuplicates(InfluenceStatsOf(posts, followers, platform, draws).campaignFitTags)
    ensures 1 <= |InfluenceStatsOf(posts, followers, platform, draws).campaignFitTags| <= TagCount(draws)
    ensures forall t :: t in InfluenceStatsOf(posts, followers, platform, draws).campaignFitTags ==> t in AllTags
  {
    var start := TagStart(draws);
    var n := TagCount(draws);
    ScoreBounds(followers, EngagementRate(posts, followers), draws[0]);
    ConfidenceRange(draws[DrawsUsed(draws) - 1]);
    DedupProperties(Picks(AllTags, draws[start..start + n]));
  }

  /**
   * `generateInfluenceStats(posts, followers, platform)`. The batch must be
   * non-empty and `followers` positive: the source divides by both unguarded.
   * `used` is the number of draws consumed.
   */
  method GenerateInfluenceStats(posts: seq<Post>, followers: int, platform: Platform, draws: seq<real>)
    returns (stats: InfluenceStats, used: nat)
    requires |posts| > 0 && followers > 0
    requires AreDraws(draws) && |draws| >= MaxDraws
    ensures stats == InfluenceStatsOf(posts, followers, platform, draws)
    ensures used == DrawsUsed(draws)
  {
    var rate := EngagementRate(posts, followers);
    var score := InfluenceScore(followers, rate, draws[0]);
    var age := AgeDistribution(draws);
    var location := LocationDistribution(draws);
    var interests := InterestDistribution(draws);

    var tags := CampaignFitTags(draws);
    used := TagStart(draws) + TagCount(draws) + 2;
    var summary := Summaries(platform)[RandomIndex(draws[used - 2], 4)];
    var confidence := Confidence(draws[used - 1]);

    stats := InfluenceStats(score, RoundToTenth(rate), Demographics(age, location, interests), tags, summary, confidence);
  }
}
