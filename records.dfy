/** The stored documents the routes and pages share: users and per-platform stats snapshots. */
module Records {
  import opened Wrappers
  import opened Domain
  import opened AiAnalysis

  datatype Role = Influencer | Brand

  /** The role as stored and as compared on the client. */
  function RoleName(r: Role): string {
    match r
    case Influencer => "influencer"
    case Brand => "brand"
  }

  /** One entry of `connectedPlatforms`. */
  datatype PlatformLink = PlatformLink(id: string, username: string, connected: bool)

  datatype Location = Location(city: Option<string>, state: Option<string>, country: string)

  /** A user document; the influencer and brand fields are optional, as in the schema. */
  datatype User = User(
    id: string,
    email: string,
    password: string,
    role: Role,
    name: string,
    avatar: Option<string>,
    age: Option<int>,
    location: Option<Location>,
    genres: seq<string>,
    pricePerPost: Option<int>,
    contactEmail: Option<string>,
    connectedPlatforms: map<Platform, PlatformLink>,
    companyName: Option<string>,
    industry: Option<string>)

  /** `connectedPlatforms?.[p]?.connected`. */
  predicate IsConnected(u: User, p: Platform) {
    p in u.connectedPlatforms && u.connectedPlatforms[p].connected
  }

  /**
   * An `InfluencerStats` document: the (userId, platform) key, the batch it
   * was scored from, the engine's output, `lastUpdated` and the creation
   * timestamp Mongoose adds.
   */
  datatype StatsRecord = StatsRecord(
    userId: string,
    platform: Platform,
    followers: int,
    posts: seq<Post>,
    analysis: InfluenceStats,
    lastUpdated: int,
    createdAt: int)
}
