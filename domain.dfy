/** The platforms and the post record shared by the generators, the scoring engine and the pages. */
module Domain {

  /** The `platform` enumeration of the stats model. */
  datatype Platform = Instagram | YouTube | Facebook

  /** The platform's name as stored and as sent in query strings. */
  function PlatformName(p: Platform): string {
    match p
    case Instagram => "instagram"
    case YouTube => "youtube"
    case Facebook => "facebook"
  }

  lemma PlatformNameInjective(p: Platform, q: Platform)
    requires PlatformName(p) == PlatformName(q)
    ensures p == q
  {
  }

  /** One post of a stats snapshot; `date` is a time in milliseconds. */
  datatype Post = Post(
    id: string,
    likes: int,
    comments: int,
    engagement: real,
    date: int,
    thumbnail: string)

  /** `24 * 60 * 60 * 1000`. */
  const MsPerDay: int := 86400000
}
