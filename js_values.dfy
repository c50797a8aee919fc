/**
 * JavaScript values as request bodies and form state carry them, and the
 * object operations the pages and routes apply: property read, property
 * assignment and the spread that copies one object's entries onto another.
 */
module JsValues {
  import opened Wrappers

  /**
   * A JavaScript value. An object is the list of its own entries in
   * enumeration order; an array is the list of its elements.
   */
  datatype Value =
    | Undefined
    | Null
    | Bool(b: bool)
    | Num(n: real)
    | NaN
    | Str(s: string)
    | Arr(items: seq<Value>)
    | Obj(fields: seq<(string, Value)>)

  /** The keys of an entry list. */
  function KeySet(fields: seq<(string, Value)>): set<string> {
    set e | e in fields :: e.0
  }

  /** No key occurs twice, as in every JavaScript object. */
  predicate DistinctKeys(fields: seq<(string, Value)>) {
    forall i, j :: 0 <= i < j < |fields| ==> fields[i].0 != fields[j].0
  }

  /** `obj[k]`: the value of the first entry with key `k`, `None` for a missing key. */
  function Get(fields: seq<(string, Value)>, k: string): (v: Option<Value>)
    ensures v.Some? ==> (k, v.value) in fields
    ensures v.None? ==> k !in KeySet(fields)
  {
    if fields == [] then None
    else if fields[0].0 == k then Some(fields[0].1)
    else
      var v := Get(fields[1..], k);
      assert v.Some? ==> (k, v.value) in fields by {
        if v.Some? { assert (k, v.value) in fields[1..]; }
      }
      assert fields == [fields[0]] + fields[1..];
      v
  }

  /**
   * `obj[k] = v`: an existing entry keeps its place and takes the new value; a
   * new key is added at the end.
   */
  function Put(fields: seq<(string, Value)>, k: string, v: Value): (r: seq<(string, Value)>)
    ensures Get(r, k) == Some(v)
    ensures forall j :: j != k ==> Get(r, j) == Get(fields, j)
    ensures KeySet(r) == KeySet(fields) + {k}
  {
    if fields == [] then [(k, v)]
    else if fields[0].0 == k then
      assert fields == [fields[0]] + fields[1..];
      [(k, v)] + fields[1..]
    else
      var rest := Put(fields[1..], k, v);
      assert fields == [fields[0]] + fields[1..];
      KeySetCons(fields[0], fields[1..]);
      KeySetCons(fields[0], rest);
      [fields[0]] + rest
  }

  lemma KeySetCons(e: (string, Value), fields: seq<(string, Value)>)
    ensures KeySet([e] + fields) == {e.0} + KeySet(fields)
  {
    var whole := [e] + fields;
    forall x | x in KeySet(whole)
      ensures x in {e.0} + KeySet(fields)
    {
      var f :| f in whole && f.0 == x;
      if f != e { assert f in fields; }
    }
    forall x | x in KeySet(fields)
      ensures x in KeySet(whole)
    {
      var f :| f in fields && f.0 == x;
      assert f in whole;
    }
    assert e in whole;
  }

  /** Assigning a property keeps the keys of an object distinct. */
  lemma {:induction false} PutKeepsDistinct(fields: seq<(string, Value)>, k: string, v: Value)
    requires DistinctKeys(fields)
    ensures DistinctKeys(Put(fields, k, v))
  {
    if fields != [] {
      var tail := fields[1..];
      assert fields == [fields[0]] + tail;
      ConsDistinct(fields[0], tail);
      if fields[0].0 != k {
        PutKeepsDistinct(tail, k, v);
        ConsDistinct(fields[0], Put(tail, k, v));
      } else {
        ConsDistinct((k, v), tail);
      }
    }
  }

  /** An entry in front of distinct keys keeps them distinct exactly when its key is new. */
  lemma ConsDistinct(e: (string, Value), fields: seq<(string, Value)>)
    ensures DistinctKeys([e] + fields) <==> e.0 !in KeySet(fields) && DistinctKeys(fields)
  {
    var r := [e] + fields;
    if DistinctKeys(r) {
      forall i, j | 0 <= i < j < |fields|
        ensures fields[i].0 != fields[j].0
      {
        assert r[i + 1] == fields[i] && r[j + 1] == fields[j];
      }
      forall f | f in fields
        ensures f.0 != e.0
      {
        var j :| 0 <= j < |fields| && fields[j] == f;
        assert r[0] == e && r[j + 1] == f;
      }
    }
    if e.0 !in KeySet(fields) && DistinctKeys(fields) {
      forall i, j | 0 <= i < j < |r|
        ensures r[i].0 != r[j].0
      {
        assert r[j] == fields[j - 1] && r[j] in fields;
        if i > 0 {
          assert r[i] == fields[i - 1];
        }
      }
    }
  }

  /** `{ ...base, ...extra }` restricted to its second half: `extra`'s entries assigned onto `base` in order. */
  function Spread(base: seq<(string, Value)>, extra: seq<(string, Value)>): seq<(string, Value)>
  {
    if extra == [] then base
    else Put(Spread(base, extra[..|extra| - 1]), extra[|extra| - 1].0, extra[|extra| - 1].1)
  }

  /** After a spread a key reads the spread object's value when it has one, the base's otherwise. */
  lemma {:induction false} SpreadGet(base: seq<(string, Value)>, extra: seq<(string, Value)>, k: string)
    requires DistinctKeys(extra)
    ensures Get(Spread(base, extra), k) == if Get(extra, k).Some? then Get(extra, k) else Get(base, k)
  {
    if extra != [] {
      var init := extra[..|extra| - 1];
      var last := extra[|extra| - 1];
      SpreadGet(base, init, k);
      if last.0 != k {
        GetOfSnoc(init, last, k);
      } else {
        assert Get(extra, k) == Some(last.1) by {
          GetOfDistinctLast(extra, k);
        }
      }
    }
  }

  /** Reading a key that the appended entry does not have looks only at the prefix. */
  lemma {:induction false} GetOfSnoc(fields: seq<(string, Value)>, e: (string, Value), k: string)
    requires e.0 != k
    ensures Get(fields + [e], k) == Get(fields, k)
  {
    if fields != [] {
      GetOfSnoc(fields[1..], e, k);
      assert (fields + [e])[1..] == fields[1..] + [e];
    }
  }

  /** With distinct keys the last entry is the one a read of its key finds. */
  lemma {:induction false} GetOfDistinctLast(fields: seq<(string, Value)>, k: string)
    requires DistinctKeys(fields) && fields != [] && fields[|fields| - 1].0 == k
    ensures Get(fields, k) == Some(fields[|fields| - 1].1)
  {
    if |fields| > 1 {
      assert fields[0].0 != k;
      var tail := fields[1..];
      assert DistinctKeys(tail) by {
        forall i, j | 0 <= i < j < |tail|
          ensures tail[i].0 != tail[j].0
        {
          assert tail[i] == fields[i + 1] && tail[j] == fields[j + 1];
        }
      }
      GetOfDistinctLast(tail, k);
    }
  }
}
