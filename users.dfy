/**
 * The user routes: `PUT /api/users/:userId` (owner-only profile update with
 * the credential fields stripped), `GET /api/users` (the influencer listing
 * with its database query, per-influencer stats aggregation and the
 * platform and engagement filters) and `GET /api/users/:userId/full`.
 */
module Users {
  import opened Wrappers
  import opened Seqs
  import opened JsText
  import opened JsValues
  import opened Domain
  import opened AiAnalysis
  import opened Records
  import opened SocialMock

  // ------------------------------------------------------------ profile update

  /** A stored user document, field by field, as a request body addresses it. */
  type Document = map<string, Value>

  /** The fields a profile update can never change. */
  const ProtectedFields: set<string> := {"password", "email", "role"}

  /** The three `delete`s on the request body. */
  method StripProtected(body: Document) returns (updates: Document)
    ensures forall k :: k in updates <==> k in body && k !in ProtectedFields
    ensures forall k :: k in updates ==> updates[k] == body[k]
  {
    updates := body;
    updates := updates - {"password"};
    updates := updates - {"email"};
    updates := updates - {"role"};
  }

  /** A key beginning with `$` names an update operator rather than a field. */
  predicate IsOperator(k: string) {
    |k| > 0 && k[0] == '$'
  }

  /** The update operators modelled here. */
  const Operators: set<string> := {"$set", "$unset", "$inc"}

  /** The entries of an object operand as a dictionary; for a repeated key the later entry wins, as in `JSON.parse`. */
  function FieldMap(fields: seq<(string, Value)>): (m: map<string, Value>)
    ensures m.Keys == KeySet(fields)
  {
    if fields == [] then map[]
    else
      var init := fields[..|fields| - 1];
      var last := fields[|fields| - 1];
      assert fields == init + [last];
      FieldMap(init)[last.0 := last.1]
  }

  /** The amounts of an `$inc` operand, or `None` when one of them is not a number. */
  function Amounts(fields: seq<(string, Value)>): (r: Option<map<string, real>>)
    ensures r.Some? ==> r.value.Keys == KeySet(fields)
    ensures r.None? <==> exists e :: e in fields && !e.1.Num?
  {
    if fields == [] then Some(map[])
    else
      var init := fields[..|fields| - 1];
      var last := fields[|fields| - 1];
      assert fields == init + [last];
      match Amounts(init)
      case None => None
      case Some(m) => if last.1.Num? then Some(m[last.0 := last.1.n]) else None
  }

  /** The writes one update performs once Mongoose has cast it. */
  datatype Ops = Ops(sets: Document, unsets: set<string>, incs: map<string, real>)

  /** The top-level keys that are not operators: Mongoose treats them as `$set` entries. */
  function PlainFields(body: Document): (r: Document)
    ensures forall k :: k in r <==> k in body && !IsOperator(k)
    ensures forall k :: k in r ==> r[k] == body[k]
  {
    map k | k in body && !IsOperator(k) :: body[k]
  }

  /** The entries of an operator's object operand: none when the operator is absent, `None` when the operand is no object. */
  function Operand(body: Document, op: string): (r: Option<Document>)
    ensures op !in body ==> r == Some(map[])
    ensures op in body && body[op].Obj? ==> r == Some(FieldMap(body[op].fields))
    ensures op in body && !body[op].Obj? ==> r.None?
  {
    if op !in body then Some(map[])
    else if body[op].Obj? then Some(FieldMap(body[op].fields))
    else None
  }

  /** Every operator key of the body is one of the modelled operators. */
  predicate KnownOperators(body: Document) {
    forall k :: k in body && IsOperator(k) ==> k in Operators
  }

  /** The `$inc` operand's amounts: none when absent, `None` when it is no object or holds a non-number. */
  function IncOperand(body: Document): (r: Option<map<string, real>>)
    ensures "$inc" !in body ==> r == Some(map[])
    ensures "$inc" in body && !body["$inc"].Obj? ==> r.None?
  {
    if "$inc" !in body then Some(map[])
    else if body["$inc"].Obj? then Amounts(body["$inc"].fields)
    else None
  }

  /** The writes, or `None` when two of them address the same field. */
  function Combine(sets: Document, unsets: set<string>, incs: map<string, real>): (r: Option<Ops>)
    ensures r.Some? <==> sets.Keys !! unsets && sets.Keys !! incs.Keys && unsets !! incs.Keys
    ensures r.Some? ==> r.value == Ops(sets, unsets, incs)
  {
    if sets.Keys !! unsets && sets.Keys !! incs.Keys && unsets !! incs.Keys
    then Some(Ops(sets, unsets, incs))
    else None
  }

  /**
   * Casting an update body: `None` is the error Mongoose or the database
   * raises for an unknown operator, an operand that is not an object, an
   * `$inc` amount that is not a number, or one field addressed by two writes.
   * Keys that are not operators join the `$set` entries.
   */
  function ParseUpdate(body: Document): (r: Option<Ops>)
    ensures r.Some? ==> KnownOperators(body)
    ensures r.Some? ==> forall k :: k in body && !IsOperator(k) ==> k in r.value.sets && r.value.sets[k] == body[k]
  {
    if !KnownOperators(body) then None
    else
      var written := Operand(body, "$set");
      var unset := Operand(body, "$unset");
      var inc := IncOperand(body);
      if written.None? || unset.None? || inc.None? then None
      else Combine(written.value + PlainFields(body), unset.value.Keys, inc.value)
  }

  /** `$inc` starts from 0 on a missing field. */
  function IncBase(doc: Document, k: string): real {
    if k in doc && doc[k].Num? then doc[k].n else 0.0
  }

  /**
   * Applying cast writes to a stored document: removals, then writes, then
   * increments; `None` when an increment meets a stored value that is not a number.
   */
  function ApplyOps(doc: Document, ops: Ops): (r: Option<Document>)
    ensures r.None? <==> exists k :: k in ops.incs && k in doc && !doc[k].Num?
    ensures r.Some? ==> forall k :: k in ops.sets ==> k in r.value && (k !in ops.incs ==> r.value[k] == ops.sets[k])
    ensures r.Some? ==> forall k :: k in ops.incs ==> k in r.value && r.value[k] == Num(IncBase(doc, k) + ops.incs[k])
    ensures r.Some? ==> forall k :: k in ops.unsets && k !in ops.sets && k !in ops.incs ==> k !in r.value
    ensures r.Some? ==> forall k :: k !in ops.sets && k !in ops.unsets && k !in ops.incs ==>
      (k in r.value <==> k in doc) && (k in doc ==> r.value[k] == doc[k])
  {
    if exists k :: k in ops.incs && k in doc && !doc[k].Num? then None
    else Some(map k | k in (doc.Keys - ops.unsets) + ops.sets.Keys + ops.incs.Keys ::
      if k in ops.incs then Num(IncBase(doc, k) + ops.incs[k])
      else if k in ops.sets then ops.sets[k]
      else doc[k])
  }

  /** `findByIdAndUpdate(id, body)` on a found document: cast the body, then apply it. */
  function MongoUpdate(doc: Document, body: Document): Option<Document> {
    match ParseUpdate(body)
    case None => None
    case Some(ops) => ApplyOps(doc, ops)
  }

  /**
   * The update of an operator-free body: every field it names takes its
   * value, except the protected ones, which keep whatever the document had.
   */
  function Applied(doc: Document, body: Document): (r: Document)
    ensures forall k :: k in ProtectedFields ==> (k in r <==> k in doc) && (k in doc ==> r[k] == doc[k])
    ensures forall k :: k in body && k !in ProtectedFields ==> k in r && r[k] == body[k]
    ensures forall k :: k in doc && k !in body ==> k in r && r[k] == doc[k]
    ensures forall k :: k in r ==> k in doc || k in body
  {
    doc + (body - ProtectedFields)
  }

  /** A body without operator keys casts to plain writes. */
  lemma PlainCasts(body: Document)
    requires forall k :: k in body ==> !IsOperator(k)
    ensures ParseUpdate(body) == Some(Ops(body, {}, map[]))
  {
    var none: Document := map[];
    assert KnownOperators(body);
    assert PlainFields(body) == body;
    assert none + PlainFields(body) == body;
    assert none.Keys == {};
  }

  /** Plain writes replace the named fields and keep the rest. */
  lemma ApplyWrites(doc: Document, sets: Document)
    ensures ApplyOps(doc, Ops(sets, {}, map[])) == Some(doc + sets)
  {
    var r := ApplyOps(doc, Ops(sets, {}, map[])).value;
    assert r.Keys == (doc + sets).Keys;
    forall k | k in r
      ensures r[k] == (doc + sets)[k]
    {
    }
    assert r == doc + sets;
  }

  /** For a body without operator keys, the stripped update stores exactly `Applied`. */
  lemma PlainBodyApplied(doc: Document, body: Document)
    requires forall k :: k in body ==> !IsOperator(k)
    ensures MongoUpdate(doc, body - ProtectedFields) == Some(Applied(doc, body))
  {
    PlainCasts(body - ProtectedFields);
    ApplyWrites(doc, body - ProtectedFields);
  }

  /** Applying the same operator-free update twice is applying it once. */
  lemma AppliedIdempotent(doc: Document, body: Document)
    ensures Applied(Applied(doc, body), body) == Applied(doc, body)
  {
    var once := Applied(doc, body);
    var twice := Applied(once, body);
    assert forall k :: k in twice <==> k in once;
    forall k | k in twice
      ensures twice[k] == once[k]
    {
      if k !in body || k in ProtectedFields {
        assert twice[k] == once[k];
      }
    }
  }

  /**
   * The three `delete`s remove top-level keys only: a protected field named
   * inside a `$set` operand survives them, and the update overwrites it with
   * whatever value the body chose.
   */
  lemma SetBypassesStrip(doc: Document, k: string, v: Value)
    requires k in ProtectedFields
    ensures MongoUpdate(doc, map["$set" := Obj([(k, v)])] - ProtectedFields) == Some(doc[k := v])
  {
    var body: Document := map["$set" := Obj([(k, v)])];
    assert body - ProtectedFields == body;
    assert FieldMap([(k, v)]) == map[k := v] by {
      assert [(k, v)][..0] == [];
    }
    SetOnlyCasts([(k, v)]);
    ApplyWrites(doc, map[k := v]);
    assert doc + map[k := v] == doc[k := v];
  }

  /** A body holding only a `$set` object casts to its entries as writes. */
  lemma SetOnlyCasts(fields: seq<(string, Value)>)
    ensures ParseUpdate(map["$set" := Obj(fields)]) == Some(Ops(FieldMap(fields), {}, map[]))
  {
    var body: Document := map["$set" := Obj(fields)];
    var none: Document := map[];
    assert KnownOperators(body);
    assert PlainFields(body) == none;
    assert Operand(body, "$unset") == Some(none);
    assert IncOperand(body) == Some(map[]);
    assert FieldMap(fields) + PlainFields(body) == FieldMap(fields);
    assert none.Keys == {};
  }

  /** A body holding only an `$inc` of one numeric amount casts to that increment. */
  lemma IncOnlyCasts(k: string, a: real)
    ensures ParseUpdate(map["$inc" := Obj([(k, Num(a))])]) == Some(Ops(map[], {}, map[k := a]))
  {
    var body: Document := map["$inc" := Obj([(k, Num(a))])];
    var none: Document := map[];
    assert [(k, Num(a))][..0] == [];
    assert KnownOperators(body);
    assert PlainFields(body) == none;
    assert Operand(body, "$set") == Some(none);
    assert Operand(body, "$unset") == Some(none);
    assert IncOperand(body) == Some(map[k := a]);
    assert none + PlainFields(body) == none;
    assert none.Keys == {};
  }

  /**
   * An `$inc` body is not idempotent: sending `{"$inc": {k: a}}` twice with
   * `a != 0` leaves a numeric or missing field `k` at a different value than sending it once.
   */
  lemma IncRepeats(doc: Document, k: string, a: real)
    requires !IsOperator(k) && a != 0.0
    requires k in doc ==> doc[k].Num?
    ensures var body := map["$inc" := Obj([(k, Num(a))])];
      && MongoUpdate(doc, body).Some?
      && MongoUpdate(MongoUpdate(doc, body).value, body).Some?
      && MongoUpdate(doc, body).value[k] == Num(IncBase(doc, k) + a)
      && MongoUpdate(MongoUpdate(doc, body).value, body).value[k] == Num(IncBase(doc, k) + a + a)
      && MongoUpdate(MongoUpdate(doc, body).value, body) != MongoUpdate(doc, body)
  {
    IncOnlyCasts(k, a);
    var ops := Ops(map[], {}, map[k := a]);
    var once := ApplyOps(doc, ops).value;
    assert once[k] == Num(IncBase(doc, k) + a);
    var twice := ApplyOps(once, ops).value;
    assert twice[k] == Num(IncBase(once, k) + a);
  }

  /** An operand's entries other than the protected fields. */
  function DropProtected(fields: seq<(string, Value)>): (r: seq<(string, Value)>)
    ensures forall e :: e in r <==> e in fields && e.0 !in ProtectedFields
  {
    if fields == [] then []
    else if fields[0].0 in ProtectedFields then DropProtected(fields[1..])
    else [fields[0]] + DropProtected(fields[1..])
  }

  /**
   * The strip the route evidently intends: the protected keys go from the
   * top level and from every operator's object operand.
   */
  function Sanitise(body: Document): (r: Document)
    ensures r.Keys == body.Keys - ProtectedFields
  {
    map k | k in body && k !in ProtectedFields ::
      if IsOperator(k) && body[k].Obj? then Obj(DropProtected(body[k].fields)) else body[k]
  }

  /** `findByIdAndUpdate` with the sanitised body. */
  function ProtectedUpdate(doc: Document, body: Document): Option<Document> {
    MongoUpdate(doc, Sanitise(body))
  }

  /** A sanitised body casts to writes that address no protected field. */
  lemma SanitisedOps(body: Document)
    requires ParseUpdate(Sanitise(body)).Some?
    ensures var ops := ParseUpdate(Sanitise(body)).value;
      && ops.sets.Keys !! ProtectedFields && ops.unsets !! ProtectedFields && ops.incs.Keys !! ProtectedFields
  {
    var clean := Sanitise(body);
    var ops := ParseUpdate(clean).value;
    forall op | op in clean && op in Operators
      ensures clean[op].Obj? ==> KeySet(clean[op].fields) !! ProtectedFields
    {
    }
    if "$set" in clean {
      assert ops.sets.Keys <= KeySet(clean["$set"].fields) + PlainFields(clean).Keys;
    } else {
      assert ops.sets.Keys <= PlainFields(clean).Keys;
    }
  }

  /**
   * Whatever the body, the intended update keeps password, email and role:
   * each is present afterwards exactly when it was before, with its old value.
   */
  lemma ProtectedUpdateKeepsCredentials(doc: Document, body: Document)
    requires ProtectedUpdate(doc, body).Some?
    ensures forall k :: k in ProtectedFields ==>
      (k in ProtectedUpdate(doc, body).value <==> k in doc)
      && (k in doc ==> ProtectedUpdate(doc, body).value[k] == doc[k])
  {
    SanitisedOps(body);
  }

  /** For a body without operator keys the intended update is the route's own. */
  lemma ProtectedUpdateOfPlainBody(doc: Document, body: Document)
    requires forall k :: k in body ==> !IsOperator(k)
    ensures ProtectedUpdate(doc, body) == MongoUpdate(doc, body - ProtectedFields)
  {
    assert Sanitise(body) == body - ProtectedFields;
  }

  /** `.select('-password')`: the document as sent back, without the password hash. */
  function Hide(doc: Document): (r: Document)
    ensures "password" !in r
    ensures forall k :: k != "password" ==> (k in r <==> k in doc) && (k in r ==> r[k] == doc[k])
  {
    doc - {"password"}
  }

  /** The users collection, by `_id`. */
  class UserStore {
    var docs: map<string, Document>

    constructor(initial: map<string, Document>)
      ensures docs == initial
    {
      docs := initial;
    }

    /**
     * `PUT /:userId` by `requester`: 403 for anyone but the user themself;
     * otherwise the body, stripped of its top-level protected keys, goes to
     * the database: a body that does not cast is a 500, an unknown id a 404,
     * an increment of a non-numeric field a 500, and a stored update is
     * answered with the new document without its password.
     */
    method UpdateProfile(requester: string, target: string, body: Document) returns (res: Result<Document>)
      modifies this
      ensures requester != target ==> res == Err(HttpError(403, "Not authorized")) && docs == old(docs)
      ensures requester == target && ParseUpdate(Sanitise(body)).None? ==>
        res == Err(HttpError(500, "Error updating user")) && docs == old(docs)
      ensures requester == target && ParseUpdate(Sanitise(body)).Some? && target !in old(docs) ==>
        res == Err(HttpError(404, "User not found")) && docs == old(docs)
      ensures requester == target && ParseUpdate(Sanitise(body)).Some? && target in old(docs) ==>
        match ProtectedUpdate(old(docs)[target], body)
        case None => res == Err(HttpError(500, "Error updating user")) && docs == old(docs)
        case Some(d) => docs == old(docs)[target := d] && res == Ok(Hide(d))
      ensures forall k :: target in old(docs) && target in docs && k in ProtectedFields ==>
        (k in docs[target] <==> k in old(docs)[target])
        && (k in docs[target] ==> docs[target][k] == old(docs)[target][k])
    {
      if requester != target {
        return Err(HttpError(403, "Not authorized"));
      }
      var updates := StripProtected(body);
      // The corrected strip: the protected keys also leave every operator's operand.
      updates := Sanitise(updates);
      assert updates == Sanitise(body);
      var ops := ParseUpdate(updates);
      if ops.None? {
        return Err(HttpError(500, "Error updating user"));
      }
      if target !in docs {
        return Err(HttpError(404, "User not found"));
      }
      var updated := ApplyOps(docs[target], ops.value);
      if updated.None? {
        return Err(HttpError(500, "Error updating user"));
      }
      ProtectedUpdateKeepsCredentials(docs[target], body);
      docs := docs[target := updated.value];
      res := Ok(Hide(updated.value));
    }
  }

  // ------------------------------------------------------------ listing

  /** The query-string parameters of `GET /api/users`; a missing one is `None`. */
  datatype ListingParams = ListingParams(
    location: Option<string>,
    ageRange: Option<string>,
    genre: Option<string>,
    platform: Option<string>,
    followerRange: Option<string>,
    engagementRate: Option<string>)

  /** The two `parseInt`s of an age range; `None` is NaN. */
  datatype AgeBounds = AgeBounds(min: Option<int>, max: Option<int>)

  /**
   * The Mongo filter: `role: 'influencer'` always, then the optional
   * `location.country`, `age: { $gte, $lte }` and `genres: { $in: [genre] }`.
   */
  datatype UserQuery = UserQuery(country: Option<string>, age: Option<AgeBounds>, genre: Option<string>)

  /** `const [min, max] = ageRange.split('-')` then `parseInt` of each; a missing half is NaN. */
  function ParseAgeBounds(range: string): AgeBounds {
    var pieces := Split(range, '-');
    AgeBounds(ParseInt(pieces[0]), if |pieces| > 1 then ParseInt(pieces[1]) else None)
  }

  /** A range written `min-max` reads back as its two numbers. */
  lemma AgeBoundsOfRange(lo: nat, hi: nat)
    ensures ParseAgeBounds(NatToString(lo) + "-" + NatToString(hi)) == AgeBounds(Some(lo), Some(hi))
  {
    var a, b := NatToString(lo), NatToString(hi);
    NatToStringDigits(lo);
    NatToStringDigits(hi);
    assert '-' !in a && '-' !in b;
    SplitAtSeparator(a, b, '-');
    SplitWithoutSeparator(b, '-');
    assert a + "-" + b == a + ['-'] + b;
    ParseIntOfNatToString(lo);
    ParseIntOfNatToString(hi);
  }

  /** `parseInt` reads `0x`-prefixed bounds in base 16: the range `0x12-0x30` queries ages 18 to 48. */
  lemma HexAgeRange()
    ensures ParseAgeBounds("0x12-0x30") == AgeBounds(Some(18), Some(48))
  {
    HexRangePieces();
    ParseIntHex('1', '2');
    ParseIntHex('3', '0');
    assert "0x12" == "0x" + ['1', '2'] && "0x30" == "0x" + ['3', '0'];
  }

  lemma HexRangePieces()
    ensures Split("0x12-0x30", '-') == ["0x12", "0x30"]
  {
    var a, b := "0x12", "0x30";
    assert '-' !in a && '-' !in b;
    SplitAtSeparator(a, b, '-');
    SplitWithoutSeparator(b, '-');
    assert "0x12-0x30" == a + ['-'] + b;
  }

  /** The query the route builds: a parameter takes part only when it is a non-empty string. */
  function QueryOf(params: ListingParams): UserQuery {
    UserQuery(
      if Present(params.location) then params.location else None,
      if Present(params.ageRange) then Some(ParseAgeBounds(params.ageRange.value)) else None,
      if Present(params.genre) then params.genre else None)
  }

  /** The conditional field assignments that build the query object. */
  method BuildQuery(params: ListingParams) returns (q: UserQuery)
    ensures q == QueryOf(params)
  {
    q := UserQuery(None, None, None);
    if Present(params.location) {
      q := q.(country := params.location);
    }
    if Present(params.ageRange) {
      var pieces := Split(params.ageRange.value, '-');
      var min := ParseInt(pieces[0]);
      var max := if |pieces| > 1 then ParseInt(pieces[1]) else None;
      q := q.(age := Some(AgeBounds(min, max)));
    }
    if Present(params.genre) {
      q := q.(genre := params.genre);
    }
  }

  /** Mongoose can cast the query: both age bounds, when present, are numbers. */
  predicate Casts(q: UserQuery) {
    q.age.Some? ==> q.age.value.min.Some? && q.age.value.max.Some?
  }

  /** A user document the query selects. */
  predicate Matches(q: UserQuery, u: User) {
    && u.role == Influencer
    && (q.country.Some? ==> u.location.Some? && u.location.value.country == q.country.value)
    && (q.age.Some? ==>
          && u.age.Some? && q.age.value.min.Some? && q.age.value.max.Some?
          && q.age.value.min.value <= u.age.value <= q.age.value.max.value)
    && (q.genre.Some? ==> q.genre.value in u.genres)
  }

  /** `.select('-password')` on a typed user: the hash is not sent; the model blanks it. */
  function WithoutPassword(u: User): User {
    u.(password := "")
  }

  function Projected(users: seq<User>): (r: seq<User>)
    ensures |r| == |users|
    ensures forall i :: 0 <= i < |users| ==> r[i] == WithoutPassword(users[i])
  {
    seq(|users|, i requires 0 <= i < |users| => WithoutPassword(users[i]))
  }

  /**
   * `User.find(query).select('-password')`: the matching users in table order;
   * a NaN age bound makes the cast fail and the route answer 500.
   */
  function FindUsers(users: seq<User>, q: UserQuery): Result<seq<User>> {
    if !Casts(q) then Err(HttpError(500, "Error fetching influencers"))
    else Ok(Projected(Filter(users, (u: User) => Matches(q, u))))
  }

  /** The find answers exactly the matching users, password blanked, and only influencers. */
  lemma FindUsersMeaning(users: seq<User>, q: UserQuery)
    requires Casts(q)
    ensures FindUsers(users, q).Ok?
    ensures forall v :: v in FindUsers(users, q).value ==> v.role == Influencer && v.password == ""
    ensures forall u :: u in users && Matches(q, u) ==> WithoutPassword(u) in FindUsers(users, q).value
    ensures forall v :: v in FindUsers(users, q).value ==> exists u :: u in users && Matches(q, u) && v == WithoutPassword(u)
  {
    var p := (u: User) => Matches(q, u);
    var matched := Filter(users, p);
    var found := Projected(matched);
    forall u | u in users && Matches(q, u)
      ensures WithoutPassword(u) in found
    {
      FilterMembership(users, p, u);
      var i :| 0 <= i < |matched| && matched[i] == u;
      assert found[i] == WithoutPassword(u);
    }
    forall v | v in found
      ensures v.role == Influencer && v.password == ""
      ensures exists u :: u in users && Matches(q, u) && v == WithoutPassword(u)
    {
      var i :| 0 <= i < |found| && found[i] == v;
      FilterMembership(users, p, matched[i]);
    }
  }

  /** The `stats` object attached to each listed influencer. */
  datatype Listed = Listed(user: User, totalFollowers: int, avgEngagement: real, platforms: seq<StatsRecord>)

  /** `stats.reduce(sum + s.engagementRate) / stats.length || 0`: the mean rate, and 0 for no stats. */
  function AverageEngagement(stats: seq<StatsRecord>): (avg: real)
    ensures |stats| == 0 ==> avg == 0.0
    ensures |stats| > 0 ==> avg * (|stats| as real) == SumOf(stats, (s: StatsRecord) => s.analysis.engagementRate)
  {
    if |stats| == 0 then 0.0
    else SumOf(stats, (s: StatsRecord) => s.analysis.engagementRate) / (|stats| as real)
  }

  /** The mean lies between the smallest and the largest rate. */
  lemma AverageEngagementBounds(stats: seq<StatsRecord>, lo: real, hi: real)
    requires |stats| > 0
    requires forall i :: 0 <= i < |stats| ==> lo <= stats[i].analysis.engagementRate <= hi
    ensures lo <= AverageEngagement(stats) <= hi
  {
    var f := (s: StatsRecord) => s.analysis.engagementRate;
    SumOfBounds(stats, f, lo, hi);
    QuotientBetween(SumOf(stats, f), |stats| as real, lo, hi);
  }

  /** Some stats exist and none is on the requested platform. */
  predicate PlatformDrops(platform: Option<string>, stats: seq<StatsRecord>) {
    Present(platform) && |stats| > 0 &&
    forall i :: 0 <= i < |stats| ==> PlatformName(stats[i].platform) != platform.value
  }

  /** The threshold parses and the mean is below it; a NaN threshold drops nobody. */
  predicate EngagementDrops(threshold: Option<string>, avg: real) {
    Present(threshold) && ParseFloat(threshold.value).Some? && avg < ParseFloat(threshold.value).value
  }

  /** The per-influencer step of the `Promise.all` map: its annotated entry, or `None` (`null`) when dropped. */
  function Annotate(inf: User, table: seq<StatsRecord>, params: ListingParams): Option<Listed> {
    var stats := StatsFor(table, inf.id);
    if PlatformDrops(params.platform, stats) then None
    else
      var avg := AverageEngagement(stats);
      if EngagementDrops(params.engagementRate, avg) then None
      else Some(Listed(inf, IntSumOf(stats, (s: StatsRecord) => s.followers), avg, stats))
  }

  /** The map followed by `filter(Boolean)`. */
  function Annotated(found: seq<User>, table: seq<StatsRecord>, params: ListingParams): seq<Listed> {
    if found == [] then []
    else match Annotate(found[0], table, params)
      case Some(l) => [l] + Annotated(found[1..], table, params)
      case None => Annotated(found[1..], table, params)
  }

  /** `GET /api/users`. */
  function Listing(users: seq<User>, table: seq<StatsRecord>, params: ListingParams): Result<seq<Listed>> {
    match FindUsers(users, QueryOf(params))
    case Err(e) => Err(e)
    case Ok(found) => Ok(Annotated(found, table, params))
  }

  function UsersOf(listed: seq<Listed>): (r: seq<User>)
    ensures |r| == |listed|
    ensures forall i :: 0 <= i < |listed| ==> r[i] == listed[i].user
  {
    seq(|listed|, i requires 0 <= i < |listed| => listed[i].user)
  }

  /** The listing fails, with 500, exactly when an age bound does not parse. */
  lemma ListingFails(users: seq<User>, table: seq<StatsRecord>, params: ListingParams)
    ensures Listing(users, table, params).Err? <==>
      Present(params.ageRange) &&
      (ParseAgeBounds(params.ageRange.value).min.None? || ParseAgeBounds(params.ageRange.value).max.None?)
    ensures Listing(users, table, params).Err? ==>
      Listing(users, table, params).error == HttpError(500, "Error fetching influencers")
  {
  }

  /** Every entry comes from the found list and is one the step keeps; every kept user is listed. */
  lemma {:induction false} AnnotatedMembership(found: seq<User>, table: seq<StatsRecord>, params: ListingParams)
    ensures forall l :: l in Annotated(found, table, params) ==> l.user in found && Annotate(l.user, table, params) == Some(l)
    ensures forall u :: u in found && Annotate(u, table, params).Some? ==> Annotate(u, table, params).value in Annotated(found, table, params)
  {
    if found != [] {
      AnnotatedMembership(found[1..], table, params);
      assert found == [found[0]] + found[1..];
    }
  }

  /** The listed users keep the order of the found list, and nothing is added. */
  lemma {:induction false} AnnotatedOrder(found: seq<User>, table: seq<StatsRecord>, params: ListingParams)
    ensures IsSubsequence(UsersOf(Annotated(found, table, params)), found)
  {
    if found != [] {
      AnnotatedOrder(found[1..], table, params);
      var rest := Annotated(found[1..], table, params);
      match Annotate(found[0], table, params)
      case Some(l) =>
        assert UsersOf([l] + rest)[1..] == UsersOf(rest);
      case None =>
        SubsequenceOfTail(UsersOf(rest), found);
    }
  }

  /** The step's decision, filter by filter. */
  lemma AnnotateDecision(inf: User, table: seq<StatsRecord>, params: ListingParams)
    ensures StatsFor(table, inf.id) == [] ==> (Annotate(inf, table, params).Some? <==> !EngagementDrops(params.engagementRate, 0.0))
    ensures !Present(params.platform) && !Present(params.engagementRate) ==> Annotate(inf, table, params).Some?
    ensures Annotate(inf, table, params).Some? ==>
      var l := Annotate(inf, table, params).value;
      && l.user == inf
      && l.platforms == StatsFor(table, inf.id)
      && (forall s :: s in l.platforms <==> s in table && s.userId == inf.id)
      && l.totalFollowers == IntSumOf(l.platforms, (s: StatsRecord) => s.followers)
      && l.avgEngagement == AverageEngagement(l.platforms)
      && (Present(params.platform) && |l.platforms| > 0 ==>
            exists i :: 0 <= i < |l.platforms| && PlatformName(l.platforms[i].platform) == params.platform.value)
      && (Present(params.engagementRate) && ParseFloat(params.engagementRate.value).Some? ==>
            l.avgEngagement >= ParseFloat(params.engagementRate.value).value)
  {
    StatsForExactly(table, inf.id);
  }

  /** What the listing answers: influencers the query selects, in table order, each kept by the step. */
  lemma ListingSelects(users: seq<User>, table: seq<StatsRecord>, params: ListingParams)
    requires Listing(users, table, params).Ok?
    ensures IsSubsequence(UsersOf(Listing(users, table, params).value), FindUsers(users, QueryOf(params)).value)
    ensures forall l :: l in Listing(users, table, params).value ==>
      && l.user.role == Influencer && l.user.password == ""
      && (exists u :: u in users && Matches(QueryOf(params), u) && l.user == WithoutPassword(u))
      && Annotate(l.user, table, params) == Some(l)
    ensures forall u :: u in users && Matches(QueryOf(params), u) && Annotate(WithoutPassword(u), table, params).Some? ==>
      Annotate(WithoutPassword(u), table, params).value in Listing(users, table, params).value
  {
    var q := QueryOf(params);
    FindUsersMeaning(users, q);
    var found := FindUsers(users, q).value;
    AnnotatedMembership(found, table, params);
    AnnotatedOrder(found, table, params);
  }

  /** `followerRange` takes no part in the step. */
  lemma {:induction false} AnnotatedIgnoresFollowerRange(found: seq<User>, table: seq<StatsRecord>, params: ListingParams, range: Option<string>)
    ensures Annotated(found, table, params.(followerRange := range)) == Annotated(found, table, params)
  {
    if found != [] {
      AnnotatedIgnoresFollowerRange(found[1..], table, params, range);
    }
  }

  /** `followerRange` is parsed but never filters: the listing is the same whatever it says. */
  lemma ListingIgnoresFollowerRange(users: seq<User>, table: seq<StatsRecord>, params: ListingParams, range: Option<string>)
    ensures Listing(users, table, params.(followerRange := range)) == Listing(users, table, params)
  {
    assert QueryOf(params.(followerRange := range)) == QueryOf(params);
    if Casts(QueryOf(params)) {
      AnnotatedIgnoresFollowerRange(FindUsers(users, QueryOf(params)).value, table, params, range);
    }
  }

  // ------------------------------------------------------------ full profile

  /** One element of the `/full` answer's `stats`: the stored fields and the first three posts. */
  datatype StatsSummary = StatsSummary(platform: Platform, followers: int, analysis: InfluenceStats, topPosts: seq<Post>)

  function Summarise(s: StatsRecord): (r: StatsSummary)
    ensures r.platform == s.platform && r.followers == s.followers && r.analysis == s.analysis
    ensures |r.topPosts| == (if |s.posts| < 3 then |s.posts| else 3)
    ensures forall i :: 0 <= i < |r.topPosts| ==> r.topPosts[i] == s.posts[i]
  {
    TakeIsPrefix(s.posts, 3);
    StatsSummary(s.platform, s.followers, s.analysis, Take(s.posts, 3))
  }

  /** `User.findById(id)`: the user with that id, if any. */
  function FindUser(users: seq<User>, id: string): (found: Option<User>)
    ensures found.Some? ==> found.value in users && found.value.id == id
    ensures found.None? ==> forall u :: u in users ==> u.id != id
  {
    if users == [] then None
    else if users[0].id == id then Some(users[0])
    else
      var r := FindUser(users[1..], id);
      assert users == [users[0]] + users[1..];
      r
  }

  /** `GET /:userId/full`: the influencer without password, and a summary of each of their stats. */
  function FullProfile(users: seq<User>, table: seq<StatsRecord>, id: string): Result<(User, seq<StatsSummary>)> {
    match FindUser(users, id)
    case None => Err(HttpError(404, "Influencer not found"))
    case Some(u) =>
      if u.role != Influencer then Err(HttpError(404, "Influencer not found"))
      else
        var stats := StatsFor(table, id);
        Ok((WithoutPassword(u), seq(|stats|, i requires 0 <= i < |stats| => Summarise(stats[i]))))
  }

  /**
   * 404 unless the id names an influencer; otherwise the stored user without
   * its password, and one summary per stats document of that user, in table
   * order, copying platform, followers and analysis, with the first three posts.
   */
  lemma FullProfileAnswers(users: seq<User>, table: seq<StatsRecord>, id: string)
    ensures FullProfile(users, table, id).Err? ==>
      FullProfile(users, table, id).error == HttpError(404, "Influencer not found") &&
      forall u :: u in users && u.id == id && FindUser(users, id) == Some(u) ==> u.role != Influencer
    ensures FullProfile(users, table, id).Ok? ==>
      var (user, summaries) := FullProfile(users, table, id).value;
      && FindUser(users, id).Some? && user == WithoutPassword(FindUser(users, id).value)
      && user.id == id && user.role == Influencer && user.password == ""
      && |summaries| == |StatsFor(table, id)|
      && forall i :: 0 <= i < |summaries| ==>
           && summaries[i] == Summarise(StatsFor(table, id)[i])
           && StatsFor(table, id)[i] in table && StatsFor(table, id)[i].userId == id
           && summaries[i].platform == StatsFor(table, id)[i].platform
           && summaries[i].followers == StatsFor(table, id)[i].followers
           && summaries[i].analysis == StatsFor(table, id)[i].analysis
           && summaries[i].topPosts == Take(StatsFor(table, id)[i].posts, 3)
           && |summaries[i].topPosts| <= 3
    ensures FullProfile(users, table, id).Ok? <==>
      FindUser(users, id).Some? && FindUser(users, id).value.role == Influencer
    ensures (forall u :: u in users ==> u.id != id) ==> FullProfile(users, table, id).Err?
  {
    StatsForExactly(table, id);
    if FullProfile(users, table, id).Ok? {
      var stats := StatsFor(table, id);
      forall i | 0 <= i < |stats|
        ensures stats[i] in table && stats[i].userId == id
      {
        assert stats[i] in stats;
      }
    }
  }
}
