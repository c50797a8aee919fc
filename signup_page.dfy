/**
 * The signup page's submission: the optional fields cleaned of empty values
 * (and the `location` object cleaned in turn), the registration payload, and
 * the role and age inputs that feed them.
 */
module SignupPage {
  import opened Wrappers
  import opened JsText
  import opened JsValues

  /** `value !== undefined && value !== '' && value !== null` fails. */
  predicate Empty(v: Value) {
    v == Undefined || v == Str("") || v == Null
  }

  /** `typeof value === 'object'` for a value that is not null. */
  predicate IsObject(v: Value) {
    v.Obj? || v.Arr?
  }

  /** `Object.entries(value)`: an array's entries are keyed by index. */
  function Entries(v: Value): seq<(string, Value)>
    requires IsObject(v)
  {
    if v.Obj? then v.fields
    else seq(|v.items|, i requires 0 <= i < |v.items| => (NatToString(i), v.items[i]))
  }

  // ------------------------------------------------------------ location

  /** The inner reduce over a prefix of the location's entries: the non-empty ones assigned in order. */
  function CleanedLocation(entries: seq<(string, Value)>): (loc: seq<(string, Value)>)
    ensures forall e :: e in loc ==> !Empty(e.1)
  {
    if entries == [] then []
    else
      var acc := CleanedLocation(entries[..|entries| - 1]);
      var (k, v) := entries[|entries| - 1];
      if !Empty(v) then PutNonEmpty(acc, k, v) else acc
  }

  /** `Put` of a non-empty value onto entries that hold none. */
  function PutNonEmpty(acc: seq<(string, Value)>, k: string, v: Value): (r: seq<(string, Value)>)
    requires forall e :: e in acc ==> !Empty(e.1)
    requires !Empty(v)
    ensures r == Put(acc, k, v)
    ensures forall e :: e in r ==> !Empty(e.1)
  {
    if acc == [] then [(k, v)]
    else if acc[0].0 == k then [(k, v)] + acc[1..]
    else
      assert forall e :: e in acc[1..] ==> e in acc;
      [acc[0]] + PutNonEmpty(acc[1..], k, v)
  }

  /** The `reduce` into `locAcc`. */
  method CleanLocation(entries: seq<(string, Value)>) returns (locAcc: seq<(string, Value)>)
    ensures locAcc == CleanedLocation(entries)
  {
    locAcc := [];
    for i := 0 to |entries|
      invariant locAcc == CleanedLocation(entries[..i])
    {
      var (locKey, locValue) := entries[i];
      if !Empty(locValue) {
        locAcc := Put(locAcc, locKey, locValue);
      }
      assert entries[..i + 1][..i] == entries[..i];
    }
    assert entries[..|entries|] == entries;
  }

  /** A location entry survives exactly when it is not empty, with its value unchanged. */
  lemma {:induction false} CleanedLocationGet(entries: seq<(string, Value)>, k: string)
    requires DistinctKeys(entries)
    ensures Get(CleanedLocation(entries), k) ==
      if Get(entries, k).Some? && !Empty(Get(entries, k).value) then Get(entries, k) else None
  {
    if entries != [] {
      var init := entries[..|entries| - 1];
      var last := entries[|entries| - 1];
      DistinctPrefix(entries);
      CleanedLocationGet(init, k);
      assert entries == init + [last];
      if last.0 != k {
        GetOfSnoc(init, last, k);
      } else {
        GetOfDistinctLast(entries, k);
        assert Get(init, k).None? by {
          NotInPrefix(entries);
        }
        if Empty(last.1) {
          assert Get(CleanedLocation(init), k).None?;
        }
      }
    }
  }

  lemma DistinctPrefix(fields: seq<(string, Value)>)
    requires DistinctKeys(fields) && fields != []
    ensures DistinctKeys(fields[..|fields| - 1])
  {
    var init := fields[..|fields| - 1];
    assert forall i :: 0 <= i < |init| ==> init[i] == fields[i];
  }

  /** With distinct keys the last entry's key does not occur before it. */
  lemma NotInPrefix(fields: seq<(string, Value)>)
    requires DistinctKeys(fields) && fields != []
    ensures fields[|fields| - 1].0 !in KeySet(fields[..|fields| - 1])
  {
    var init := fields[..|fields| - 1];
    forall e | e in init
      ensures e.0 != fields[|fields| - 1].0
    {
      var i :| 0 <= i < |init| && init[i] == e;
      assert fields[i] == e;
    }
  }

  // ------------------------------------------------------------ all fields

  /** What the outer reduce assigns for one entry: nothing for an empty value or an all-empty location. */
  function CleanValue(k: string, v: Value): (r: Option<Value>)
    ensures Empty(v) ==> r.None?
    ensures !Empty(v) && !(k == "location" && IsObject(v)) ==> r == Some(v)
    ensures !Empty(v) && k == "location" && IsObject(v) ==>
      r == if CleanedLocation(Entries(v)) == [] then None else Some(Obj(CleanedLocation(Entries(v))))
  {
    if Empty(v) then None
    else if k == "location" && IsObject(v) then
      var loc := CleanedLocation(Entries(v));
      if |loc| > 0 then Some(Obj(loc)) else None
    else Some(v)
  }

  /** The outer reduce over a prefix of the fields. */
  function CleanedFields(fields: seq<(string, Value)>): seq<(string, Value)> {
    if fields == [] then []
    else
      var acc := CleanedFields(fields[..|fields| - 1]);
      var (k, v) := fields[|fields| - 1];
      match CleanValue(k, v)
      case None => acc
      case Some(w) => Put(acc, k, w)
  }

  /** The location branch of the reduce. */
  method CleanLocationField(acc: seq<(string, Value)>, value: Value) returns (acc': seq<(string, Value)>)
    requires IsObject(value) && !Empty(value)
    ensures acc' == match CleanValue("location", value) case None => acc case Some(w) => Put(acc, "location", w)
  {
    var cleanedLocation := CleanLocation(Entries(value));
    if |cleanedLocation| > 0 {
      acc' := Put(acc, "location", Obj(cleanedLocation));
    } else {
      acc' := acc;
    }
  }

  /** `cleanedFields`: the reduce over `Object.entries(additionalFields)`. */
  method CleanFields(fields: seq<(string, Value)>) returns (acc: seq<(string, Value)>)
    ensures acc == CleanedFields(fields)
  {
    acc := [];
    for i := 0 to |fields|
      invariant acc == CleanedFields(fields[..i])
    {
      var (key, value) := fields[i];
      if !Empty(value) {
        if key == "location" && IsObject(value) {
          acc := CleanLocationField(acc, value);
        } else {
          acc := Put(acc, key, value);
        }
      }
      assert fields[..i + 1][..i] == fields[..i];
    }
    assert fields[..|fields|] == fields;
  }

  /** Cleaning never produces an entry with an empty value, and keeps the keys distinct. */
  lemma {:induction false} CleanedFieldsWellFormed(fields: seq<(string, Value)>)
    ensures DistinctKeys(CleanedFields(fields))
    ensures forall e :: e in CleanedFields(fields) ==> !Empty(e.1)
  {
    if fields != [] {
      var init := fields[..|fields| - 1];
      CleanedFieldsWellFormed(init);
      var (k, v) := fields[|fields| - 1];
      if CleanValue(k, v).Some? {
        PutKeepsDistinct(CleanedFields(init), k, CleanValue(k, v).value);
        var r := PutNonEmpty(CleanedFields(init), k, CleanValue(k, v).value);
      }
    }
  }

  /**
   * A field reads after cleaning as `CleanValue` makes it: dropped when empty,
   * the location cleaned and dropped when nothing is left, any other value
   * copied unchanged.
   */
  lemma {:induction false} CleanedFieldsGet(fields: seq<(string, Value)>, k: string)
    requires DistinctKeys(fields)
    ensures Get(CleanedFields(fields), k) == if Get(fields, k).Some? then CleanValue(k, Get(fields, k).value) else None
  {
    if fields != [] {
      var init := fields[..|fields| - 1];
      var last := fields[|fields| - 1];
      DistinctPrefix(fields);
      CleanedFieldsGet(init, k);
      assert fields == init + [last];
      if last.0 != k {
        GetOfSnoc(init, last, k);
      } else {
        GetOfDistinctLast(fields, k);
        assert Get(init, k).None? by {
          NotInPrefix(fields);
        }
      }
    }
  }

  // ------------------------------------------------------------ payload

  /** The form's own four fields. */
  function FormFields(name: string, email: string, password: string, role: string): seq<(string, Value)> {
    [("name", Str(name)), ("email", Str(email)), ("password", Str(password)), ("role", Str(role))]
  }

  /** `{ name, email, password, role, ...cleanedFields }`. */
  function Payload(name: string, email: string, password: string, role: string, cleaned: seq<(string, Value)>): seq<(string, Value)> {
    Spread(FormFields(name, email, password, role), cleaned)
  }

  lemma FormFieldsGet(name: string, email: string, password: string, role: string, k: string)
    ensures Get(FormFields(name, email, password, role), k) ==
      if k == "name" then Some(Str(name))
      else if k == "email" then Some(Str(email))
      else if k == "password" then Some(Str(password))
      else if k == "role" then Some(Str(role))
      else None
  {
    var f := FormFields(name, email, password, role);
    assert f[1..][1..][1..][1..] == [];
  }

  /** A cleaned field wins over the form's own four; every other key reads as the form set it. */
  lemma PayloadGet(name: string, email: string, password: string, role: string, fields: seq<(string, Value)>, k: string)
    ensures Get(Payload(name, email, password, role, CleanedFields(fields)), k) ==
      if Get(CleanedFields(fields), k).Some? then Get(CleanedFields(fields), k)
      else if k == "name" then Some(Str(name))
      else if k == "email" then Some(Str(email))
      else if k == "password" then Some(Str(password))
      else if k == "role" then Some(Str(role))
      else None
  {
    CleanedFieldsWellFormed(fields);
    SpreadGet(FormFields(name, email, password, role), CleanedFields(fields), k);
    FormFieldsGet(name, email, password, role, k);
  }

  // ------------------------------------------------------------ inputs

  /** The role the form starts with: the `role` query parameter when it is non-empty, `influencer` otherwise. */
  function InitialRole(query: Option<string>): (role: string)
    ensures Present(query) ==> role == query.value
    ensures !Present(query) ==> role == "influencer"
  {
    var initialRole := if query.Some? then query.value else "";
    if initialRole != "" then initialRole else "influencer"
  }

  /** The age input's handler: `value ? parseInt(value) : undefined`. */
  function AgeField(input: string): (v: Value)
    ensures input == "" ==> v == Undefined
    ensures input != "" ==> (v == NaN <==> ParseInt(input).None?)
  {
    if input == "" then Undefined
    else match ParseInt(input)
      case Some(n) => Num(n as real)
      case None => NaN
  }

  /** An empty age input never reaches the payload; a typed number does, as that number. */
  lemma AgeFieldCleaned(n: nat)
    ensures CleanValue("age", AgeField("")) == None
    ensures CleanValue("age", AgeField(NatToString(n))) == Some(Num(n as real))
  {
    NatToStringDigits(n);
    ParseIntOfNatToString(n);
  }
}
