# Influencer marketplace core, modelled in Dafny

The system is a marketplace where brands find influencers. The server
(Express over MongoDB) does three things:

- It scores influencers with a mock analysis engine.
- It fabricates post batches for three social platforms, Instagram,
  YouTube and Facebook.
- It keeps users, shortlists and messages.

The React client filters the influencer listing, cleans the signup form,
guards routes by role and aggregates an influencer's statistics.

This project models that sequential core and proves what it promises. The
modules are:

- `AiAnalysis`: the scoring engine `generateInfluenceStats`.
  - The engagement rate.
  - The follower-tier score with its boost, clamp and rounding.
  - The three audience distributions, normalised to 100.
  - The campaign-tag draw-and-deduplicate loop.
  - The summary template and the confidence draw.
- `PostBatches`, `SocialMock`: the mock connectors.
  - A per-platform batch table.
  - The batch-then-engagement loops.
  - The find-then-overwrite-or-create of the `(userId, platform)` stats
    document.
  - `/stats/:userId`.
- `SeedData`: the seed script's generation rules.
  - 30 influencers with their genres, age, price and location.
  - The stats of connected platforms.
  - 10 brands.
- `Users`: the users routes.
  - The profile update with its field stripping, and Mongoose's `$set`, `$unset` and `$inc` update operators.
  - The influencer listing: query, per-influencer aggregation and
    filtering.
  - The full profile.
- `Shortlists`, `Messages`: the shortlist and message tables with their
  ownership rules.
- `BrandDashboard`, `SignupPage`, `PrivateRoute`, `InfluencerDashboard`: the
  client's pure decisions and state updates.
- `Wrappers`, `Seqs`, `Randomness`, `Domain`, `Records`, `JsText`,
  `JsValues`: shared vocabulary.
  - JavaScript's `parseInt`, `parseFloat`, `Number`, `split`,
    `toLowerCase` and `includes`.
  - Plain JavaScript objects and their spread.
  - Drawing from `Math.random()`.

Nondeterminism and the environment are made explicit:

- Every `Math.random()` is the next element of a supplied `draws: seq<real>`,
  each in [0,1), consumed in source order.
- `Date.now()` is a parameter `now` (milliseconds).
- Database collections are sequences in insertion order, and ObjectIds are
  supplied ids or counters.
- Numbers are `real`, so "sums to 100" holds exactly.
- `Math.round(x)` is `Floor(x + 0.5)`, and `Math.floor(r * n)` is
  `(r * n).Floor`.
- A JavaScript `NaN` is an `Option` that is `None`, or the `NaN`
  constructor of a share or value.

Where the code and the repository's own description differ, the model
follows the code:

- `confidencePercent` is `round(75 + 20r)`, so 95 is reachable.
- The campaign tag list can hold a single tag, because deduplication can
  leave one.
- A single post with engagement 200 and 1000 followers scores anywhere in
  [34,49], 49 included.

## Model

| member | source | states |
|---|---|---|
| `AiAnalysis.EngagementRate` | server/src/utils/aiAnalysis.ts:35-36 | rate · followers · batch length = 100 · total engagement. It requires a non-empty batch and positive followers, because both divisions are unguarded |
| `AiAnalysis.EngagementRateNonNegative` | server/src/utils/aiAnalysis.ts:35-36 | non-negative engagements give a non-negative rate |
| `AiAnalysis.RoundToTenthClose` | server/src/utils/aiAnalysis.ts:105 | the reported rate is within 0.05 of the exact one and has a single decimal |
| `AiAnalysis.InfluenceScore` | server/src/utils/aiAnalysis.ts:39-47 | the step-by-step reassignment computes the tier base plus rate/5, clamped to [1,100] and rounded. The result is an integer in [1,100] |
| `AiAnalysis.ScoreBounds` | server/src/utils/aiAnalysis.ts:46-47 | for any followers, rate and draw, the returned score is in [1,100] |
| `AiAnalysis.TierBaseRange` | server/src/utils/aiAnalysis.ts:40-43 | the base lies in its tier's band: [20,30), [30,45), [50,70) or [70,90), split at 1000, 10000 and 100000 followers |
| `AiAnalysis.TierBaseGap` | server/src/utils/aiAnalysis.ts:41-42 | no base falls in [45,50) |
| `AiAnalysis.TierOrder` | server/src/utils/aiAnalysis.ts:40-43 | a higher follower tier never has a lower base, whatever the draws |
| `AiAnalysis.ScoreMonotoneInRate` | server/src/utils/aiAnalysis.ts:46-47 | a higher unrounded rate never lowers the score |
| `AiAnalysis.ScoreExample` | server/src/utils/aiAnalysis.ts:36-47 | one post with engagement 200 and 1000 followers gives rate 20 and a score in [34,49] |
| `AiAnalysis.FillWeights` | server/src/utils/aiAnalysis.ts:51-54 | the `forEach` gives label j the weight offset + draw_j · scale, for exactly the listed labels |
| `AiAnalysis.SumValues` | server/src/utils/aiAnalysis.ts:57 | the `reduce` over the values is the sum of the raw weights |
| `AiAnalysis.Normalise` | server/src/utils/aiAnalysis.ts:58-60 | each value becomes raw/total · 100. It is NaN when the total is 0 |
| `AiAnalysis.Distribution` | server/src/utils/aiAnalysis.ts:50-60 | the filled, summed and normalised map is the block `DistributionOf` the labels and draws, and holds each label's share of the drawn weights |
| `AiAnalysis.SharesMeaning` | server/src/utils/aiAnalysis.ts:58-60 | for distinct labels, the map written label by label holds exactly the labels, each with its own weight over the total, times 100 |
| `AiAnalysis.SharesUnique` | server/src/utils/aiAnalysis.ts:58-60 | a map that gives each distinct label its share and has no other key is that map |
| `AiAnalysis.SharesTotal` | server/src/utils/aiAnalysis.ts:56-60 | with a positive raw sum, the shares add up to exactly 100 |
| `AiAnalysis.NormalisedShares` | server/src/utils/aiAnalysis.ts:56-60 | with non-negative weights and a positive sum, every share is a number ≥ 0 and they total 100 |
| `AiAnalysis.UndefinedShares` | server/src/utils/aiAnalysis.ts:57-60 | a zero raw sum makes every share NaN |
| `AiAnalysis.DrawnShares` | server/src/utils/aiAnalysis.ts:52-60 | one positive draw suffices for a normalised map. If every draw is 0, every share is NaN |
| `AiAnalysis.InterestWeightsPositive` | server/src/utils/aiAnalysis.ts:74-75 | interest weights are ≥ 20 each, so their sum is positive |
| `AiAnalysis.InterestCount` | server/src/utils/aiAnalysis.ts:74 | between 3 and 5 interests are kept |
| `AiAnalysis.TagCount` | server/src/utils/aiAnalysis.ts:84 | `numTags` is between 2 and 5 |
| `AiAnalysis.LabelsDistinct` | server/src/utils/aiAnalysis.ts:50-72 | the age, location and interest label lists have no duplicates |
| `AiAnalysis.AgeDistribution` | server/src/utils/aiAnalysis.ts:50-60 | the age map is the audience's age block: the shares of draws 1-5 scaled by 30 |
| `AiAnalysis.AgeShares` | server/src/utils/aiAnalysis.ts:50-60 | each age group maps to its draw · 30 over the sum of the five, times 100. The 5 groups total 100 when one of their draws is positive; otherwise all are NaN |
| `AiAnalysis.LocationDistribution` | server/src/utils/aiAnalysis.ts:62-70 | the location map is the audience's location block: the shares of draws 6-11 scaled by 25 |
| `AiAnalysis.LocationShares` | server/src/utils/aiAnalysis.ts:62-70 | each location maps to its draw · 25 over the sum of the six, times 100. The 6 locations total 100 when one of their draws is positive; otherwise all are NaN |
| `AiAnalysis.InterestDistribution` | server/src/utils/aiAnalysis.ts:72-80 | the interest map is the audience's interest block: the first k interests with the shares of the next k draws as 20 + draw · 30 |
| `AiAnalysis.InterestShares` | server/src/utils/aiAnalysis.ts:72-80 | each of the first k interests maps to its 20 + draw · 30 weight over the sum, times 100. They total 100, always |
| `AiAnalysis.SummaryInterpolation` | server/src/utils/aiAnalysis.ts:92-97 | there are 4 templates. Only the second depends on the platform, and it names the platform |
| `AiAnalysis.ConfidenceRange` | server/src/utils/aiAnalysis.ts:101-113 | the rounded confidence is in [75,95], and both ends are reached |
| `AiAnalysis.CampaignFitTags` | server/src/utils/aiAnalysis.ts:82-90 | the loop's tags are the draws' picks from the 8 labels with repeats dropped in first-seen order: distinct, all from the vocabulary, between 1 and numTags of them |
| `AiAnalysis.GenerateInfluenceStats` | server/src/utils/aiAnalysis.ts:27-115 | the result is `InfluenceStatsOf` the batch, followers, platform and draws: the score from draw 0 and the unrounded rate, the rounded rate, the three audience blocks, the deduplicated tags, then the summary and the confidence from the next two draws. It also gives the number of draws used |
| `AiAnalysis.AudienceProperties` | server/src/utils/aiAnalysis.ts:49-80 | in every record, each age group, location and chosen interest has its share of its own drawn weight. Age and location total 100 when one of their draws is positive and are NaN throughout otherwise; interests always total 100 |
| `AiAnalysis.InfluenceStatsProperties` | server/src/utils/aiAnalysis.ts:39-113 | every record has a score in [1,100], a confidence in [75,95], one of the 4 summary templates, and 1 to numTags distinct tags from the vocabulary |
| `Randomness.RandomInt` | server/src/routes/socialMock.ts:27 | `Math.floor(r * span) + min` lies in [min, min + span) |
| `Randomness.DrawDistinct` | server/src/utils/aiAnalysis.ts:85-89 | the push-unless-included loop yields the deduplicated picks. They have no duplicates, all come from the vocabulary, every pick is present, and there are between 1 and n of them |
| `PostBatches.GeneratePosts` | server/src/routes/socialMock.ts:25-38 | `Array.from` with engagement 0, then the in-place engagement `forEach`, builds exactly the specified batch |
| `PostBatches.PlatformBatch` | server/src/routes/socialMock.ts:25-38 | per platform: 12/10/15 posts; likes and comments in [100,5099]/[10,209], [500,10499]/[20,519], [50,3049]/[5,154]; engagement likes+2·comments, 1.5·likes+3·comments, likes+1.5·comments; dates 7/10/5 days apart |
| `PostBatches.BatchRanges` | server/src/routes/socialMock.ts:27-37 | every post's likes and comments lie in the drawn ranges, and its engagement is the weighted sum and positive |
| `PostBatches.BatchDatesDecrease` | server/src/routes/socialMock.ts:30 | post 0 is dated now, and dates strictly decrease with the index |
| `PostBatches.BatchIdsDistinct` | server/src/routes/socialMock.ts:26 | post ids within a batch are pairwise distinct |
| `SocialMock.FindStats` | server/src/routes/socialMock.ts:41 | `findOne` finds the first document with the (userId, platform) key, or reports that none has it |
| `SocialMock.UpsertStores` | server/src/routes/socialMock.ts:44-63 | after the store, keys stay unique and the new document is present. The table grows by one only when the key was new |
| `SocialMock.UpsertOthersUnchanged` | server/src/routes/socialMock.ts:44-63 | documents with any other key are exactly those before |
| `SocialMock.UpsertCreationTime` | server/src/routes/socialMock.ts:44-54 | an existing document is overwritten in place, and all fields except its creation time are replaced |
| `SocialMock.StatsForExactly` | server/src/routes/socialMock.ts:176-178 | `/stats/:userId` returns exactly the user's documents |
| `SocialMock.MockMeetsScoringPreconditions` | server/src/routes/socialMock.ts:35-42 | every mock batch is non-empty and has positive followers, as the engine requires |
| `SocialMock.MockScrape` | server/src/routes/socialMock.ts:24-42 | the document carries the platform's batch, followers from the draw after it in the platform's range ([5000,54999], [10000,109999], [2000,31999]), and exactly the engine's result on the draws after that. Its score is in [1,100] and its confidence in [75,95] |
| `SocialMock.StatsStore.Stats` | server/src/routes/socialMock.ts:172-178 | only the user's documents are returned |
| `SocialMock.StatsStore.Connect` | server/src/routes/socialMock.ts:20-65 | the table becomes the upsert of the scraped document, with keys kept unique. The document holds the batch, the drawn follower count and exactly the engine's result on the later draws. The answer is the follower count and exactly the first 3 posts |
| `SeedData.DrawnLocation` | server/src/scripts/seedData.ts:42-43 | the stored city belongs to the city list of the stored country, and no state is set |
| `SeedData.SeedInfluencer` | server/src/scripts/seedData.ts:42-85 | role influencer; 1–3 distinct genres from the 8; age in [18,52]; price in [100,999]; city in its country's list; Instagram connected; YouTube iff its draw > 0.3 and Facebook iff > 0.5 |
| `SeedData.SeedInfluencers` | server/src/scripts/seedData.ts:41-89 | exactly 30 seeded influencers, numbered 1..30 by e-mail |
| `SeedData.SeedPlatformStats` | server/src/scripts/seedData.ts:94-117 | a seeded platform document: followers from draw 0 in the seed's range, the platform's batch from the next draws, and exactly the engine's result on the draws after the batch. It also gives the draws used |
| `SeedData.SeedStats` | server/src/scripts/seedData.ts:92-170 | one document per connected platform and none for the others. Platforms are distinct |
| `SeedData.SeedAllStats` | server/src/scripts/seedData.ts:92-170 | every stats document belongs to a seeded influencer, and every influencer has an Instagram document |
| `SeedData.SeedBrand` | server/src/scripts/seedData.ts:175-183 | brand i is a brand named `companyNames[i-1]`, with an industry from the list |
| `SeedData.SeedBrands` | server/src/scripts/seedData.ts:173-186 | exactly 10 brands, with the company names in order |
| `SeedData.Seed` | server/src/scripts/seedData.ts:37-186 | 30 influencers and 10 brands with the properties above. Every stats document belongs to an influencer, and each influencer has Instagram stats |
| `Users.StripProtected` | server/src/routes/users.ts:29-32 | the updates hold exactly the body's keys other than password, email and role, with their values unchanged |
| `Users.ParseUpdate` | server/src/routes/users.ts:34 | a body casts only when its operator keys are `$set`, `$unset` or `$inc`; then every plain key is written with its value |
| `Users.ApplyOps` | server/src/routes/users.ts:34 | an `$inc` of a stored non-number fails. Otherwise written fields take their values, incremented fields add to their old number or 0, unset fields vanish, and every other field stays |
| `Users.Applied` | server/src/routes/users.ts:34 | for a body without operator keys: the protected fields keep their stored values, other body keys overwrite, and untouched keys remain |
| `Users.PlainBodyApplied` | server/src/routes/users.ts:29-34 | for a body without `$` keys, the stripped update stores exactly `Applied` |
| `Users.AppliedIdempotent` | server/src/routes/users.ts:29-34 | applying the same operator-free update twice is applying it once |
| `Users.SetBypassesStrip` | server/src/routes/users.ts:29-34 | for every protected field and value, the body `{"$set": {field: value}}` survives the deletes and the update stores that value |
| `Users.IncRepeats` | server/src/routes/users.ts:29-34 | repeating `{"$inc": {k: a}}` with a ≠ 0 moves the field again, so an operator update is not idempotent |
| `Users.Sanitise` | server/src/routes/users.ts:29-32 | the intended strip keeps exactly the body's top-level keys other than password, email and role |
| `Users.ProtectedUpdateKeepsCredentials` | server/src/routes/users.ts:29-34 | with the protected keys stripped from the operands as well, every update leaves password, email and role present exactly as before, with their old values |
| `Users.ProtectedUpdateOfPlainBody` | server/src/routes/users.ts:29-34 | for a body without operator keys, the stricter strip updates exactly as the route does |
| `Users.Hide` | server/src/routes/users.ts:34 | `select('-password')` removes only the password |
| `Users.UserStore.UpdateProfile` | server/src/routes/users.ts:25-43 | 403 "Not authorized" when the requester is not the target. A stripped body that does not cast gives 500 "Error updating user", an unknown user 404 "User not found", and an `$inc` of a stored non-number 500. Otherwise only the target's document changes, to the update of the stripped body, and the answer hides its password. Password, email and role keep their stored values |
| `Users.AgeBoundsOfRange` | server/src/routes/users.ts:63-66 | an age range written "lo-hi" parses to the bounds lo and hi |
| `Users.HexAgeRange` | server/src/routes/users.ts:64-65 | `parseInt` reads `0x` bounds in base 16, so the range "0x12-0x30" queries ages 18 to 48 |
| `JsText.ParseIntHex` | server/src/routes/users.ts:65 | `parseInt` without a radix reads `0x` and two hexadecimal digits as their base-16 value |
| `JsText.ParseIntBareHexPrefix` | server/src/routes/users.ts:65 | `0x` with no hexadecimal digit after it is NaN |
| `JsText.ParseIntNoBreakSpace` | server/src/routes/users.ts:65 | a leading no-break space is skipped like any blank |
| `Users.BuildQuery` | server/src/routes/users.ts:58-69 | the conditional field assignments build the listing query |
| `Users.Projected` | server/src/routes/users.ts:75 | every found user is returned, in order, with the password blanked |
| `Users.FindUsersMeaning` | server/src/routes/users.ts:58-75 | the query finds exactly the influencers with an exact country match, an age within the inclusive bounds, and the genre among their genres |
| `Users.AverageEngagement` | server/src/routes/users.ts:88 | the mean engagement rate. The NaN-or-0 fallback makes it 0 when there are no stats |
| `Users.AverageEngagementBounds` | server/src/routes/users.ts:88 | the mean lies between the smallest and the largest rate |
| `Users.ListingFails` | server/src/routes/users.ts:63-110 | the listing answers 500 exactly when an age range bound does not parse |
| `Users.AnnotateDecision` | server/src/routes/users.ts:80-101 | influencers without stats pass the platform filter. A kept entry carries the user's stats, the follower sum and the mean rate, and meets the platform and engagement filters |
| `Users.AnnotatedMembership` | server/src/routes/users.ts:78-105 | `filter(Boolean)` keeps exactly the entries not dropped |
| `Users.AnnotatedOrder` | server/src/routes/users.ts:78-105 | the kept entries appear in the query's order |
| `Users.ListingSelects` | server/src/routes/users.ts:47-107 | the listing holds exactly the matching, password-less influencers that no filter drops, in order |
| `Users.AnnotatedIgnoresFollowerRange` | server/src/routes/users.ts:70-73 | `followerRange` changes no per-influencer decision |
| `Users.ListingIgnoresFollowerRange` | server/src/routes/users.ts:70-73 | `followerRange` never changes the listing |
| `Users.Summarise` | server/src/routes/users.ts:126-136 | each summary copies the platform, followers and analysis, and keeps exactly the first 3 posts |
| `Users.FindUser` | server/src/routes/users.ts:117 | `findById` finds a user with that id, or reports that none has it |
| `Users.FullProfileAnswers` | server/src/routes/users.ts:115-137 | 404 "Influencer not found" exactly when the id names no user or a user who is not an influencer. Otherwise the stored user with its password blanked, and one summary per stats document of theirs in table order, each copying platform, followers and analysis and holding the first 3 posts |
| `Shortlists.FindEntry` | server/src/routes/shortlists.ts:50 | finds the entry with that id, or reports that none has it |
| `Shortlists.Without` | server/src/routes/shortlists.ts:58 | removes exactly the entry with that id and keeps the rest in order |
| `Shortlists.WithoutKeepsInvariant` | server/src/routes/shortlists.ts:58 | deleting keeps the (brand, influencer) pairs unique |
| `Shortlists.ShortlistTable.ListFor` | server/src/routes/shortlists.ts:10 | exactly the requester's entries, in table order |
| `Shortlists.ShortlistTable.Add` | server/src/routes/shortlists.ts:21-44 | 400 "Missing influencer ID"; 400 "Already in shortlist" for an existing pair (both leave the table unchanged); otherwise one new entry owned by the requester is appended. Pairs stay unique |
| `Shortlists.ShortlistTable.Remove` | server/src/routes/shortlists.ts:48-60 | 404 "Shortlist item not found"; 403 "Not authorized" unless the requester owns the entry; otherwise only that entry is removed |
| `Messages.InsertNewestFirst` | server/src/routes/messages.ts:16 | inserting one message into a newest-first list keeps it newest-first |
| `Messages.SortNewestFirst` | server/src/routes/messages.ts:16 | the result is a newest-first permutation of the input |
| `Messages.Inbox` | server/src/routes/messages.ts:10-16 | exactly the messages the user sent or received, newest first |
| `Messages.MessageTable.MessagesFor` | server/src/routes/messages.ts:8-18 | `GET /` answers the user's messages, newest first |
| `Messages.MessageTable.Create` | server/src/routes/messages.ts:26-47 | 400 "Missing required fields" without `to` or `content`, storing nothing. Otherwise one unread message from the requester is appended, with `collaborationRequest` defaulting to false |
| `Messages.FindMessage` | server/src/routes/messages.ts:57 | finds the message with that id, or reports that none has it |
| `Messages.MarkAt` | server/src/routes/messages.ts:65 | only that message's `isRead` becomes true |
| `Messages.MarkAtIdempotent` | server/src/routes/messages.ts:65-66 | marking a message read twice is marking it once |
| `Messages.MessageTable.MarkRead` | server/src/routes/messages.ts:55-68 | 404 "Message not found"; 403 "Not authorized" unless the requester is the recipient; otherwise only that message is marked read |
| `BrandDashboard.LocationStep` | client/src/pages/BrandDashboard.tsx:58-60 | applies the case-insensitive country substring filter when it is set |
| `BrandDashboard.AgeStep` | client/src/pages/BrandDashboard.tsx:62-65 | applies the `Number`-parsed min ≤ age ≤ max filter when it is set |
| `BrandDashboard.GenreStep` | client/src/pages/BrandDashboard.tsx:67-69 | applies the case-insensitive genre substring filter when it is set |
| `BrandDashboard.PlatformStep` | client/src/pages/BrandDashboard.tsx:71-75 | applies the has-stats-on-platform filter when it is set |
| `BrandDashboard.EngagementStep` | client/src/pages/BrandDashboard.tsx:77-79 | applies the `avgEngagement >= parseFloat(threshold)` filter when it is set |
| `BrandDashboard.ApplyFilters` | client/src/pages/BrandDashboard.tsx:55-81 | the five reassignments of `filtered` equal one filter by all five tests together |
| `BrandDashboard.KeepsMeaning` | client/src/pages/BrandDashboard.tsx:55-81 | an influencer is kept iff each set filter accepts it |
| `BrandDashboard.FilteredSelection` | client/src/pages/BrandDashboard.tsx:55-81 | the result is a subsequence of the listing, holding exactly the influencers that pass |
| `BrandDashboard.ClearedKeepsAll` | client/src/pages/BrandDashboard.tsx:210 | after "Clear Filters" the whole listing is shown |
| `BrandDashboard.FollowerRangeIgnored` | client/src/pages/BrandDashboard.tsx:16-23 | the follower-range input never affects what is shown |
| `BrandDashboard.CountryMatchIgnoresCase` | client/src/pages/BrandDashboard.tsx:59 | the location test ignores the case of the typed text |
| `BrandDashboard.ExactCountryPasses` | client/src/pages/BrandDashboard.tsx:59 | whatever the server's exact country match keeps, the client's test keeps |
| `BrandDashboard.NoStatsFailsPlatform` | client/src/pages/BrandDashboard.tsx:72-74 | an influencer without stats fails a set platform filter, unlike on the server |
| `BrandDashboard.UnparsableThresholdHidesAll` | client/src/pages/BrandDashboard.tsx:78 | a threshold that parses to NaN hides everyone |
| `BrandDashboard.AgeRangeOfNumbers` | client/src/pages/BrandDashboard.tsx:63-64 | "lo-hi" keeps exactly the influencers whose age is in [lo, hi] |
| `BrandDashboard.IsInShortlist` | client/src/pages/BrandDashboard.tsx:93-95 | true iff some shortlist item is for that influencer |
| `SignupPage.CleanLocation` | client/src/pages/SignupPage.tsx:38-43 | the inner `reduce` assigns the non-empty location entries in order |
| `SignupPage.CleanedLocationGet` | client/src/pages/SignupPage.tsx:38-48 | a location entry survives iff it is not undefined, '' or null, and its value is unchanged |
| `SignupPage.CleanValue` | client/src/pages/SignupPage.tsx:35-51 | drops an empty value; cleans a location object and drops it when nothing is left; copies anything else |
| `SignupPage.CleanLocationField` | client/src/pages/SignupPage.tsx:37-48 | the location branch assigns the cleaned location only when it has a field |
| `SignupPage.CleanFields` | client/src/pages/SignupPage.tsx:34-54 | the outer `reduce` computes the cleaned fields |
| `SignupPage.CleanedFieldsWellFormed` | client/src/pages/SignupPage.tsx:34-54 | no cleaned field is empty, and keys are distinct |
| `SignupPage.CleanedFieldsGet` | client/src/pages/SignupPage.tsx:34-54 | each key reads after cleaning as `CleanValue` of its input value, and absent keys stay absent |
| `SignupPage.PayloadGet` | client/src/pages/SignupPage.tsx:56 | a cleaned field wins over name, email, password and role, and every other key reads as the form set it |
| `SignupPage.InitialRole` | client/src/pages/SignupPage.tsx:9-14 | the `role` query parameter when it is non-empty, `influencer` otherwise |
| `SignupPage.AgeField` | client/src/pages/SignupPage.tsx:180 | an empty input is undefined; anything else is `parseInt`, NaN iff it does not parse |
| `SignupPage.AgeFieldCleaned` | client/src/pages/SignupPage.tsx:180 | an empty age never reaches the payload, and a typed number reaches it as that number |
| `PrivateRoute.HomeOf` | client/src/components/PrivateRoute.tsx:26-30 | `influencer` goes to its dashboard, and any other role goes to the brand dashboard |
| `PrivateRoute.Decide` | client/src/components/PrivateRoute.tsx:12-33 | spinner iff loading; /login without a user; children iff signed in and the role is met or none is required; otherwise a redirect to the user's home |
| `PrivateRoute.RoleRedirectSettles` | client/src/components/PrivateRoute.tsx:24-31 | a role redirect leads to a dashboard whose guard admits the user |
| `InfluencerDashboard.WithConnected` | client/src/pages/InfluencerDashboard.tsx:59-66 | only `connectedPlatforms[platform].connected` becomes true. Other platforms, the entry's other fields and the rest of the user are kept |
| `InfluencerDashboard.WithConnectedIdempotent` | client/src/pages/InfluencerDashboard.tsx:59-66 | connecting twice is connecting once |
| `InfluencerDashboard.WithConnectedMonotone` | client/src/pages/InfluencerDashboard.tsx:59-66 | connecting never disconnects another platform |
| `InfluencerDashboard.Dashboard.constructor` | client/src/pages/InfluencerDashboard.tsx:14-17 | the page starts with no stats, loading, and not connecting |
| `InfluencerDashboard.Dashboard.LoadStats` | client/src/pages/InfluencerDashboard.tsx:23-39 | without a user, nothing changes. Without an id, or when the fetch fails, the stats are kept. Otherwise they are replaced; loading ends either way |
| `InfluencerDashboard.Dashboard.ConnectPlatform` | client/src/pages/InfluencerDashboard.tsx:41-72 | without a user or an id, nothing changes. Otherwise `connecting` ends null; a successful connect reloads the stats and marks the platform connected |
| `InfluencerDashboard.RoundedMean` | client/src/pages/InfluencerDashboard.tsx:129-135 | 0 when there are no stats |
| `InfluencerDashboard.RoundedMeanBounds` | client/src/pages/InfluencerDashboard.tsx:129-135 | the rounded mean lies within the bounds of its terms |
| `InfluencerDashboard.AveragesInRange` | client/src/pages/InfluencerDashboard.tsx:129-135 | for engine-made stats, the average score is in [1,100] and the average confidence in [75,95] |
| `InfluencerDashboard.PlatformStats` | client/src/pages/InfluencerDashboard.tsx:113-117 | one entry per stat, carrying its platform and its likes and comments summed over the posts |
| `InfluencerDashboard.BatchTotalsBounds` | client/src/pages/InfluencerDashboard.tsx:113-117 | for a generated batch, the totals lie between the batch length times the per-post bounds |
| `InfluencerDashboard.PostPoints` | client/src/pages/InfluencerDashboard.tsx:106-111 | one chart point per post, with its date and engagement |
| `InfluencerDashboard.ChartDataLength` | client/src/pages/InfluencerDashboard.tsx:106-111 | the chart has exactly as many points as there are posts in all stats |
| `InfluencerDashboard.TerrainPoints` | client/src/pages/InfluencerDashboard.tsx:119-127 | at most the first 10 posts of a stat, labelled with its platform |
| `InfluencerDashboard.TerrainDataBounds` | client/src/pages/InfluencerDashboard.tsx:119-127 | at most 10 points per stat. Their count is the sum of the truncated batch lengths, and every label is a platform present in the stats |

## Left out

- Database access is not modelled: Mongoose `find`/`create`/`save`/`deleteMany`, `populate`, and the seed script's connect and exit. Collections are sequences, and populated references stay ids.
- Authentication is not modelled: password hashing, JSON Web Tokens and the auth middleware. The requester's id is a parameter.
- The route `GET /api/users/:userId` is not modelled; it is a plain lookup.
- Express and axios wiring and the 500 answers for thrown exceptions are not modelled. Three 500 answers are modelled: the listing's failed age cast (an assumption about how the database driver rejects a NaN bound), and in the profile update a body that does not cast and an `$inc` of a stored non-number.
- Database validation is not modelled: casting of invalid ObjectIds, strict-mode dropping of unknown update keys, casting of update values to the schema's types, and schema `required` checks.
- SocialMock.StatsStore.Connect: when all five age draws or all six location draws are 0, the engine's shares are NaN (AiAnalysis.UndefinedShares). The schema's number cast rejects NaN, so in the program the save fails and the route answers 500; the model stores the record. SocialMock.MockScrape and SeedData.SeedPlatformStats build such a record the same way, where the seed script would abort.
- Users.UserStore.UpdateProfile: the body is a JSON object. A JSON array body is not modelled: the deletes remove nothing from it, and Mongoose reads an array as an update pipeline, whose `$set` stage can also change password, email or role.
- Messages.SortNewestFirst: the database promises no order among messages with equal timestamps; the model fixes one, putting a later-listed message first.
- Update operators other than `$set`, `$unset` and `$inc` (`$push`, `$rename`, `$min` and the rest) are not modelled: a body using one is answered 500 here. Dotted paths inside an operand name a top-level field here, not a nested one.
- Users.ParseUpdate: a field named both at the top level and inside `$set` takes the top-level value; the order Mongoose merges the two in is not modelled.
- Users.ParseUpdate: an `$inc` amount that is a numeric string is refused here, where Mongoose casts it to a number.
- Users.Applied: describes only bodies without operator keys. For a body with a `$set`, `$unset` or `$inc` operand the protected fields can change, which Users.SetBypassesStrip states.
- Users.AppliedIdempotent: holds only for bodies without operator keys. An `$inc` body is not idempotent, which Users.IncRepeats states.
- Users.UserStore.UpdateProfile: strips the protected keys from operator operands as well, the corrected behaviour under "## Findings". The route as written strips only the top level, which Users.SetBypassesStrip states; for bodies without operator keys the two agree (Users.ProtectedUpdateOfPlainBody).
- SocialMock.StatsStore.Valid: unique (userId, platform) keys rely on requests running one at a time. The schema has no unique index, so two concurrent connects can both create a document.
- SocialMock.StatsStore.Connect: the `updatedAt` timestamp Mongoose adds is not modelled; only `createdAt` and `lastUpdated` are.
- Rendering is not modelled: JSX, charts, the three.js terrain coordinates (`Math.cos`/`Math.sin` placement and `y`), `toLocaleDateString` (chart dates stay timestamps) and the PDF export.
- The clock is read once per operation. The few milliseconds between the source's separate `Date.now()` and `new Date()` readings are not distinguished.
- Float behaviour is not modelled: IEEE-754 rounding, `parseFloat`/`Number` for exponents, `Infinity` and non-ASCII digits, and `Number` for hexadecimal, octal and binary literals. Case folding covers ASCII letters only.
- JavaScript's ordering of integer-like object keys is not modelled; object entries keep insertion order.
- Query parameters given as arrays are not modelled; they are strings or absent.
- The signup page's city and country input handlers are not modelled. Only the cleaning of whatever `location` holds is.
- InfluencerDashboard.WithConnected: a platform the user had no entry for gets a link with empty id and username where the source leaves them undefined.
- Users.Projected: the projected-away password is modelled as an empty string rather than an absent field.
- SeedData.Seed: states that each influencer has Instagram stats and that every document belongs to an influencer. The exact per-influencer platform set is stated per influencer by SeedData.SeedStats, not repeated for the whole run.
- SocialMock.StatsStore.Stats: states only that the answer holds the user's documents. That it holds all of them is SocialMock.StatsForExactly.
- InfluencerDashboard.RoundedMean: states only the empty case. The bounds of the rounded mean are InfluencerDashboard.RoundedMeanBounds.

## Findings

| source | as written | input that shows it | evidently intended | confidence | as-written member | corrected member |
|---|---|---|---|---|---|---|
| server/src/routes/users.ts:29-34 | the three `delete`s remove only top-level `password`, `email` and `role` keys before `findByIdAndUpdate`, which applies `$set`, `$unset` and `$inc` operands | the user's own `PUT` with body `{"$set": {"role": "brand", "password": "p"}}` changes the role and stores an unhashed password | no profile update can change password, email or role | not executed | `Users.SetBypassesStrip` | `Users.ProtectedUpdateKeepsCredentials` |
