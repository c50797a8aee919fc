/**
 * The mock social connectors `GET /api/social/<platform>/:userId`: generate a
 * post batch and a follower count, score them, and overwrite-or-create the
 * (userId, platform) stats document; and `GET /api/social/stats/:userId`.
 */
module SocialMock {
  import opened Wrappers
  import opened Seqs
  import opened Randomness
  import opened Domain
  import opened AiAnalysis
  import opened Records
  import opened PostBatches

  /** The mock routes name posts `<platform>_<i>`. */
  function MockBatch(p: Platform): BatchConfig {
    BatchFor(p, PlatformName(p) + "_")
  }

  function MockFollowers(p: Platform): FollowerRange {
    match p
    case Instagram => FollowerRange(5000, 50000)
    case YouTube => FollowerRange(10000, 100000)
    case Facebook => FollowerRange(2000, 30000)
  }

  /** Draws one connect consumes at most: 30 for the largest batch, one for followers, then the engine's. */
  const MaxConnectDraws: nat := 31 + MaxDraws

  /** The (userId, platform) key of a stats document. */
  predicate HasKey(r: StatsRecord, userId: string, p: Platform) {
    r.userId == userId && r.platform == p
  }

  /** `InfluencerStats.findOne({ userId, platform })`: the position of the first document with that key. */
  function FindStats(records: seq<StatsRecord>, userId: string, p: Platform): (found: Option<nat>)
    ensures found.Some? ==> found.value < |records| && HasKey(records[found.value], userId, p)
    ensures found.Some? ==> forall k :: 0 <= k < found.value ==> !HasKey(records[k], userId, p)
    ensures found.None? ==> forall k :: 0 <= k < |records| ==> !HasKey(records[k], userId, p)
  {
    if records == [] then None
    else if HasKey(records[0], userId, p) then Some(0)
    else match FindStats(records[1..], userId, p)
      case None => None
      case Some(i) => Some(i + 1)
  }

  /**
   * The found document has its followers, posts, derived fields and
   * `lastUpdated` overwritten and keeps its creation time; with none found,
   * `doc` is created at the end of the table.
   */
  function Upsert(records: seq<StatsRecord>, doc: StatsRecord): seq<StatsRecord> {
    match FindStats(records, doc.userId, doc.platform)
    case Some(i) => records[i := doc.(createdAt := records[i].createdAt)]
    case None => records + [doc]
  }

  /** No two documents share a (userId, platform) key. */
  predicate UniqueKeys(records: seq<StatsRecord>) {
    forall i, j :: 0 <= i < j < |records| ==> !HasKey(records[j], records[i].userId, records[i].platform)
  }

  /** After an upsert exactly one document has the key, carrying the new content. */
  lemma UpsertStores(records: seq<StatsRecord>, doc: StatsRecord)
    requires UniqueKeys(records)
    ensures UniqueKeys(Upsert(records, doc))
    ensures exists i :: 0 <= i < |Upsert(records, doc)| && Upsert(records, doc)[i] == doc.(createdAt := Upsert(records, doc)[i].createdAt)
    ensures |Upsert(records, doc)| == |records| + (if FindStats(records, doc.userId, doc.platform).None? then 1 else 0)
  {
    var r := Upsert(records, doc);
    match FindStats(records, doc.userId, doc.platform)
    case Some(i) =>
      assert r[i] == doc.(createdAt := r[i].createdAt);
    case None =>
      assert r[|records|] == doc;
  }

  /** Documents with another key are untouched, and none is added or removed. */
  lemma UpsertOthersUnchanged(records: seq<StatsRecord>, doc: StatsRecord)
    ensures forall r :: r in records && !HasKey(r, doc.userId, doc.platform) ==> r in Upsert(records, doc)
    ensures forall r :: r in Upsert(records, doc) && !HasKey(r, doc.userId, doc.platform) ==> r in records
  {
    var u := Upsert(records, doc);
    match FindStats(records, doc.userId, doc.platform)
    case Some(i) =>
      forall r | r in records && !HasKey(r, doc.userId, doc.platform)
        ensures r in u
      {
        var k :| 0 <= k < |records| && records[k] == r;
        assert u[k] == r;
      }
    case None =>
  }

  /** An overwrite keeps the document's creation time; a create stamps it with the clock reading. */
  lemma UpsertCreationTime(records: seq<StatsRecord>, doc: StatsRecord, i: nat)
    requires UniqueKeys(records) && i < |records| && HasKey(records[i], doc.userId, doc.platform)
    ensures Upsert(records, doc)[i] == doc.(createdAt := records[i].createdAt)
  {
    var f := FindStats(records, doc.userId, doc.platform);
    assert f.Some? && f.value <= i;
  }

  /** `/stats/:userId`: every document of that user, in table order. */
  function StatsFor(records: seq<StatsRecord>, userId: string): seq<StatsRecord> {
    Filter(records, (r: StatsRecord) => r.userId == userId)
  }

  lemma StatsForExactly(records: seq<StatsRecord>, userId: string)
    ensures forall r :: r in StatsFor(records, userId) <==> r in records && r.userId == userId
  {
    forall r: StatsRecord
      ensures r in StatsFor(records, userId) <==> r in records && r.userId == userId
    {
      FilterMembership(records, (r: StatsRecord) => r.userId == userId, r);
    }
  }

  /** A mock batch is non-empty and its follower count positive, as the engine needs. */
  lemma MockMeetsScoringPreconditions(p: Platform, now: int, draws: seq<real>)
    requires AreDraws(draws) && |draws| >= MaxConnectDraws
    ensures |Batch(MockBatch(p), now, draws)| > 0
    ensures RandomInt(draws[BatchDraws(MockBatch(p))], MockFollowers(p).min, MockFollowers(p).span) > 0
  {
    BatchForWellFormed(p, PlatformName(p) + "_");
  }

  /**
   * The generation half of a connect: the batch, then the follower draw, then
   * the engine on the draws that follow. `doc` is the document to store,
   * stamped with the clock reading.
   */
  method MockScrape(userId: string, p: Platform, now: int, draws: seq<real>) returns (doc: StatsRecord)
    requires AreDraws(draws) && |draws| >= MaxConnectDraws
    ensures doc.userId == userId && doc.platform == p && doc.lastUpdated == now && doc.createdAt == now
    ensures doc.posts == Batch(MockBatch(p), now, draws)
    ensures doc.followers == RandomInt(draws[BatchDraws(MockBatch(p))], MockFollowers(p).min, MockFollowers(p).span)
    ensures MockFollowers(p).min <= doc.followers < MockFollowers(p).min + MockFollowers(p).span
    ensures doc.analysis == InfluenceStatsOf(doc.posts, doc.followers, p, draws[BatchDraws(MockBatch(p)) + 1..])
    ensures 1 <= doc.analysis.influenceScore <= 100 && 75 <= doc.analysis.confidencePercent <= 95
  {
    var c := MockBatch(p);
    BatchForWellFormed(p, PlatformName(p) + "_");
    var posts := GeneratePosts(c, now, draws);
    var range := MockFollowers(p);
    var n := BatchDraws(c);
    var followers := RandomInt(draws[n], range.min, range.span);
    var rest := draws[n + 1..];
    assert rest[0] == draws[n + 1];
    var analysis, _ := GenerateInfluenceStats(posts, followers, p, rest);
    InfluenceStatsProperties(posts, followers, p, rest);
    doc := StatsRecord(userId, p, followers, posts, analysis, now, now);
    assert draws[BatchDraws(MockBatch(p)) + 1..] == rest;
  }

  /** The stats table. */
  class StatsStore {
    var records: seq<StatsRecord>

    ghost predicate Valid()
      reads this
    {
      UniqueKeys(records)
    }

    constructor()
      ensures records == [] && Valid()
    {
      records := [];
    }

    /** `/stats/:userId`. */
    function Stats(userId: string): (found: seq<StatsRecord>)
      reads this
      ensures forall r :: r in found ==> r in records && r.userId == userId
    {
      StatsForExactly(records, userId);
      StatsFor(records, userId)
    }

    /**
     * `GET /api/social/<platform>/:userId`: draws the batch, then the follower
     * count, scores them, and stores the document. Answers the follower count
     * and the first three posts; `doc` is the document as written.
     */
    method Connect(userId: string, p: Platform, now: int, draws: seq<real>)
      returns (followers: int, shown: seq<Post>, doc: StatsRecord)
      requires Valid() && AreDraws(draws) && |draws| >= MaxConnectDraws
      modifies this
      ensures Valid()
      ensures records == Upsert(old(records), doc)
      ensures doc.userId == userId && doc.platform == p && doc.lastUpdated == now && doc.createdAt == now
      ensures doc.posts == Batch(MockBatch(p), now, draws)
      ensures followers == doc.followers
      ensures followers == RandomInt(draws[BatchDraws(MockBatch(p))], MockFollowers(p).min, MockFollowers(p).span)
      ensures MockFollowers(p).min <= followers < MockFollowers(p).min + MockFollowers(p).span
      ensures doc.analysis == InfluenceStatsOf(doc.posts, followers, p, draws[BatchDraws(MockBatch(p)) + 1..])
      ensures 1 <= doc.analysis.influenceScore <= 100 && 75 <= doc.analysis.confidencePercent <= 95
      ensures |shown| == 3 && shown == doc.posts[..3]
    {
      doc := MockScrape(userId, p, now, draws);
      BatchForWellFormed(p, PlatformName(p) + "_");
      var existing := FindStats(records, userId, p);
      if existing.Some? {
        var i := existing.value;
        records := records[i := doc.(createdAt := records[i].createdAt)];
      } else {
        records := records + [doc];
      }
      UpsertStores(old(records), doc);
      followers := doc.followers;
      shown := Take(doc.posts, 3);
    }
  }
}
