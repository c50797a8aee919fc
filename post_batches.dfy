/**
 * The synthetic post batches the mock connectors and the seed script
 * generate: a per-platform table of batch length, like and comment ranges,
 * engagement weights, date spacing and thumbnail URL, and the two loops that
 * build a batch and then write each post's engagement in place.
 */
module PostBatches {
  import opened Randomness
  import opened Domain
  import JsText

  datatype BatchConfig = BatchConfig(
    count: nat,
    idPrefix: string,
    likesMin: nat,
    likesSpan: nat,
    commentsMin: nat,
    commentsSpan: nat,
    likeWeight: real,
    commentWeight: real,
    spacingDays: nat,
    thumbnailSize: string,
    thumbnailOffset: nat)

  /** A follower draw `Math.floor(Math.random() * span) + min`. */
  datatype FollowerRange = FollowerRange(min: nat, span: nat)

  /** The per-platform batch table; the mock routes and the seed script differ only in the id prefix. */
  function BatchFor(p: Platform, idPrefix: string): (c: BatchConfig)
    ensures c.idPrefix == idPrefix
  {
    match p
    case Instagram => BatchConfig(12, idPrefix, 100, 5000, 10, 200, 1.0, 2.0, 7, "400/400", 0)
    case YouTube => BatchConfig(10, idPrefix, 500, 10000, 20, 500, 1.5, 3.0, 10, "800/450", 100)
    case Facebook => BatchConfig(15, idPrefix, 50, 3000, 5, 150, 1.0, 1.5, 5, "600/600", 200)
  }

  predicate WellFormed(c: BatchConfig) {
    c.count > 0 && c.likesMin > 0 && c.likesSpan > 0 && c.commentsSpan > 0 && c.likeWeight > 0.0 && c.commentWeight > 0.0 && c.spacingDays > 0
  }

  lemma BatchForWellFormed(p: Platform, idPrefix: string)
    ensures WellFormed(BatchFor(p, idPrefix))
    ensures 10 <= BatchFor(p, idPrefix).count <= 15
  {
  }

  /** The number of draws a batch consumes: a like and a comment draw per post. */
  function BatchDraws(c: BatchConfig): nat {
    2 * c.count
  }

  function PostId(c: BatchConfig, i: nat): string {
    c.idPrefix + JsText.NatToString(i)
  }

  function Thumbnail(c: BatchConfig, i: nat): string {
    "https://picsum.photos/" + c.thumbnailSize + "?random=" + JsText.NatToString(i + c.thumbnailOffset)
  }

  /** `now - i * spacingDays * 24 * 60 * 60 * 1000`. */
  function PostDate(c: BatchConfig, now: int, i: nat): int {
    now - i * c.spacingDays * MsPerDay
  }

  function Engagement(c: BatchConfig, likes: int, comments: int): real {
    likes as real * c.likeWeight + comments as real * c.commentWeight
  }

  function Likes(c: BatchConfig, draws: seq<real>, i: nat): int
    requires WellFormed(c) && AreDraws(draws) && i < c.count && |draws| >= BatchDraws(c)
  {
    RandomInt(draws[2 * i], c.likesMin, c.likesSpan)
  }

  function Comments(c: BatchConfig, draws: seq<real>, i: nat): int
    requires WellFormed(c) && AreDraws(draws) && i < c.count && |draws| >= BatchDraws(c)
  {
    RandomInt(draws[2 * i + 1], c.commentsMin, c.commentsSpan)
  }

  /** Post `i` of the batch once its engagement has been written. */
  function BatchPost(c: BatchConfig, now: int, draws: seq<real>, i: nat): Post
    requires WellFormed(c) && AreDraws(draws) && i < c.count && |draws| >= BatchDraws(c)
  {
    var likes := Likes(c, draws, i);
    var comments := Comments(c, draws, i);
    Post(PostId(c, i), likes, comments, Engagement(c, likes, comments), PostDate(c, now, i), Thumbnail(c, i))
  }

  function Batch(c: BatchConfig, now: int, draws: seq<real>): (posts: seq<Post>)
    requires WellFormed(c) && AreDraws(draws) && |draws| >= BatchDraws(c)
    ensures |posts| == c.count
  {
    seq(c.count, i requires 0 <= i < c.count => BatchPost(c, now, draws, i))
  }

  /**
   * `Array.from({ length: count }, ...)` with `engagement: 0`, then
   * `posts.forEach(post => post.engagement = ...)`.
   */
  method GeneratePosts(c: BatchConfig, now: int, draws: seq<real>) returns (posts: seq<Post>)
    requires WellFormed(c) && AreDraws(draws) && |draws| >= BatchDraws(c)
    ensures posts == Batch(c, now, draws)
  {
    var a := new Post[c.count];
    for i := 0 to c.count
      invariant forall j :: 0 <= j < i ==> a[j] == BatchPost(c, now, draws, j).(engagement := 0.0)
    {
      var likes := RandomInt(draws[2 * i], c.likesMin, c.likesSpan);
      var comments := RandomInt(draws[2 * i + 1], c.commentsMin, c.commentsSpan);
      a[i] := Post(PostId(c, i), likes, comments, 0.0, PostDate(c, now, i), Thumbnail(c, i));
    }
    for i := 0 to c.count
      invariant forall j :: 0 <= j < i ==> a[j] == BatchPost(c, now, draws, j)
      invariant forall j :: i <= j < c.count ==> a[j] == BatchPost(c, now, draws, j).(engagement := 0.0)
    {
      a[i] := a[i].(engagement := Engagement(c, a[i].likes, a[i].comments));
    }
    posts := a[..];
  }

  /** Likes and comments stay in their drawn ranges, and every engagement is positive. */
  lemma BatchRanges(c: BatchConfig, now: int, draws: seq<real>, i: nat)
    requires WellFormed(c) && AreDraws(draws) && |draws| >= BatchDraws(c) && i < c.count
    ensures var p := Batch(c, now, draws)[i];
      && c.likesMin <= p.likes < c.likesMin + c.likesSpan
      && c.commentsMin <= p.comments < c.commentsMin + c.commentsSpan
      && p.engagement == p.likes as real * c.likeWeight + p.comments as real * c.commentWeight
      && p.engagement > 0.0
  {
    var p := Batch(c, now, draws)[i];
    assert p == BatchPost(c, now, draws, i);
    assert p.likes as real * c.likeWeight > 0.0;
    assert p.comments as real * c.commentWeight >= 0.0;
  }

  /**
   * Post `i` of each platform's batch: 12, 10 and 15 posts; likes and
   * comments in [100,5099] and [10,209], [500,10499] and [20,519], [50,3049]
   * and [5,154]; engagement `likes + 2·comments`, `1.5·likes + 3·comments`,
   * `likes + 1.5·comments`; dated 7, 10 and 5 days apart.
   */
  lemma PlatformBatch(p: Platform, idPrefix: string, now: int, draws: seq<real>, i: nat)
    requires AreDraws(draws) && |draws| >= BatchDraws(BatchFor(p, idPrefix)) && i < BatchFor(p, idPrefix).count
    ensures var post := Batch(BatchFor(p, idPrefix), now, draws)[i];
      && post.id == idPrefix + JsText.NatToString(i)
      && match p
         case Instagram =>
           && |Batch(BatchFor(p, idPrefix), now, draws)| == 12
           && 100 <= post.likes <= 5099 && 10 <= post.comments <= 209
           && post.engagement == post.likes as real + 2.0 * post.comments as real
           && post.date == now - i * 7 * MsPerDay
         case YouTube =>
           && |Batch(BatchFor(p, idPrefix), now, draws)| == 10
           && 500 <= post.likes <= 10499 && 20 <= post.comments <= 519
           && post.engagement == 1.5 * post.likes as real + 3.0 * post.comments as real
           && post.date == now - i * 10 * MsPerDay
         case Facebook =>
           && |Batch(BatchFor(p, idPrefix), now, draws)| == 15
           && 50 <= post.likes <= 3049 && 5 <= post.comments <= 154
           && post.engagement == post.likes as real + 1.5 * post.comments as real
           && post.date == now - i * 5 * MsPerDay
  {
    BatchForWellFormed(p, idPrefix);
    BatchRanges(BatchFor(p, idPrefix), now, draws, i);
  }

  /** Dates strictly decrease along the batch: post `i` is `i` spacings before the clock reading. */
  lemma BatchDatesDecrease(c: BatchConfig, now: int, draws: seq<real>, i: nat, j: nat)
    requires WellFormed(c) && AreDraws(draws) && |draws| >= BatchDraws(c) && i < j < c.count
    ensures Batch(c, now, draws)[i].date > Batch(c, now, draws)[j].date
    ensures Batch(c, now, draws)[0].date == now
  {
    var d := c.spacingDays * MsPerDay;
    assert d > 0;
    assert i * d < j * d;
    assert PostDate(c, now, i) == now - i * d;
    assert PostDate(c, now, j) == now - j * d;
  }

  /** Post ids within a batch are pairwise distinct. */
  lemma BatchIdsDistinct(c: BatchConfig, now: int, draws: seq<real>, i: nat, j: nat)
    requires WellFormed(c) && AreDraws(draws) && |draws| >= BatchDraws(c) && i < c.count && j < c.count
    requires Batch(c, now, draws)[i].id == Batch(c, now, draws)[j].id
    ensures i == j
  {
    JsText.PrefixedNatInjective(c.idPrefix, i, j);
  }
}
