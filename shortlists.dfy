/**
 * The shortlist routes: a brand's list of influencers, with a unique
 * (brandId, influencerId) index, owner-only removal and 400/403/404 answers.
 */
module Shortlists {
  import opened Wrappers
  import opened Seqs

  /** One shortlist document; `id` stands for its ObjectId. */
  datatype Entry = Entry(id: nat, brandId: string, influencerId: string, notes: Option<string>)

  /** Some entry already pairs `brand` with `influencer`. */
  predicate HasPair(entries: seq<Entry>, brand: string, influencer: string) {
    exists i :: 0 <= i < |entries| && entries[i].brandId == brand && entries[i].influencerId == influencer
  }

  /** The unique index on (brandId, influencerId). */
  predicate UniquePairs(entries: seq<Entry>) {
    forall i, j :: 0 <= i < j < |entries| ==>
      entries[i].brandId != entries[j].brandId || entries[i].influencerId != entries[j].influencerId
  }

  /** Ids are handed out in increasing order, so no two entries share one. */
  predicate IdsBelow(entries: seq<Entry>, next: nat) {
    (forall i :: 0 <= i < |entries| ==> entries[i].id < next) &&
    (forall i, j :: 0 <= i < j < |entries| ==> entries[i].id < entries[j].id)
  }

  /** `Shortlist.findById(id)`: the position of the entry with that id. */
  function FindEntry(entries: seq<Entry>, id: nat): (found: Option<nat>)
    ensures found.Some? ==> found.value < |entries| && entries[found.value].id == id
    ensures found.None? ==> forall k :: 0 <= k < |entries| ==> entries[k].id != id
  {
    IndexWhere(entries, (e: Entry) => e.id == id)
  }

  /** The table after `deleteOne` of the entry with id `id`. */
  function Without(entries: seq<Entry>, id: nat): (r: seq<Entry>)
    ensures forall e :: e in r <==> e in entries && e.id != id
    ensures IsSubsequence(r, entries)
  {
    var p := (e: Entry) => e.id != id;
    FilterIsSubsequence(entries, p);
    forall e
      ensures e in Filter(entries, p) <==> e in entries && e.id != id
    {
      FilterMembership(entries, p, e);
    }
    Filter(entries, p)
  }

  /** Removing entries keeps the pairs unique and the ids ordered. */
  lemma WithoutKeepsInvariant(entries: seq<Entry>, id: nat, next: nat)
    requires UniquePairs(entries) && IdsBelow(entries, next)
    ensures UniquePairs(Without(entries, id)) && IdsBelow(Without(entries, id), next)
  {
    SubsequenceKeeps(Without(entries, id), entries, next);
  }

  lemma {:induction false} SubsequenceKeeps(a: seq<Entry>, b: seq<Entry>, next: nat)
    requires IsSubsequence(a, b) && UniquePairs(b) && IdsBelow(b, next)
    ensures UniquePairs(a) && IdsBelow(a, next)
    decreases |b|
  {
    if a != [] {
      var b' := b[1..];
      assert UniquePairs(b') && IdsBelow(b', next) by {
        assert forall i :: 0 <= i < |b'| ==> b'[i] == b[i + 1];
      }
      if a[0] == b[0] {
        SubsequenceKeeps(a[1..], b', next);
        forall j | 0 < j < |a|
          ensures a[0].brandId != a[j].brandId || a[0].influencerId != a[j].influencerId
          ensures a[0].id < a[j].id
        {
          SubsequenceMember(a[1..], b', j - 1);
          var k :| 0 <= k < |b'| && b'[k] == a[j];
          assert b[k + 1] == a[j];
        }
        assert forall i :: 0 < i < |a| ==> a[i] == a[1..][i - 1];
      } else {
        SubsequenceKeeps(a, b', next);
      }
    }
  }

  lemma {:induction false} SubsequenceMember(a: seq<Entry>, b: seq<Entry>, j: nat)
    requires IsSubsequence(a, b) && j < |a|
    ensures a[j] in b
    decreases |b|
  {
    if a[0] == b[0] {
      if j > 0 {
        SubsequenceMember(a[1..], b[1..], j - 1);
      }
    } else {
      SubsequenceMember(a, b[1..], j);
    }
  }

  /** The shortlist collection and its ObjectId counter. */
  class ShortlistTable {
    var entries: seq<Entry>
    var nextId: nat

    ghost predicate Valid()
      reads this
    {
      UniquePairs(entries) && IdsBelow(entries, nextId)
    }

    constructor()
      ensures entries == [] && Valid()
    {
      entries := [];
      nextId := 0;
    }

    /** `GET /`: exactly the entries whose owner is the requester, in table order. */
    function ListFor(requester: string): (r: seq<Entry>)
      reads this
      ensures forall e :: e in r <==> e in entries && e.brandId == requester
      ensures IsSubsequence(r, entries)
    {
      var p := (e: Entry) => e.brandId == requester;
      FilterIsSubsequence(entries, p);
      forall e
        ensures e in Filter(entries, p) <==> e in entries && e.brandId == requester
      {
        FilterMembership(entries, p, e);
      }
      Filter(entries, p)
    }

    /**
     * `POST /`: 400 without an influencer id, 400 when the pair exists (the
     * duplicate-key error), otherwise a new entry owned by the requester
     * (answered with 201).
     */
    method Add(requester: string, influencerId: Option<string>, notes: Option<string>) returns (res: Result<Entry>)
      requires Valid()
      modifies this
      ensures Valid()
      ensures !Present(influencerId) ==>
        res == Err(HttpError(400, "Missing influencer ID")) && entries == old(entries) && nextId == old(nextId)
      ensures Present(influencerId) && HasPair(old(entries), requester, influencerId.value) ==>
        res == Err(HttpError(400, "Already in shortlist")) && entries == old(entries) && nextId == old(nextId)
      ensures Present(influencerId) && !HasPair(old(entries), requester, influencerId.value) ==>
        && res == Ok(Entry(old(nextId), requester, influencerId.value, notes))
        && entries == old(entries) + [res.value]
        && nextId == old(nextId) + 1
    {
      if !Present(influencerId) {
        return Err(HttpError(400, "Missing influencer ID"));
      }
      if HasPair(entries, requester, influencerId.value) {
        return Err(HttpError(400, "Already in shortlist"));
      }
      var e := Entry(nextId, requester, influencerId.value, notes);
      entries := entries + [e];
      nextId := nextId + 1;
      res := Ok(e);
    }

    /**
     * `DELETE /:id`: 404 for an unknown id, 403 when the requester does not own
     * the entry, otherwise that entry alone is removed.
     */
    method Remove(requester: string, id: nat) returns (res: Result<string>)
      requires Valid()
      modifies this
      ensures Valid() && nextId == old(nextId)
      ensures FindEntry(old(entries), id).None? ==>
        res == Err(HttpError(404, "Shortlist item not found")) && entries == old(entries)
      ensures FindEntry(old(entries), id).Some? && old(entries)[FindEntry(old(entries), id).value].brandId != requester ==>
        res == Err(HttpError(403, "Not authorized")) && entries == old(entries)
      ensures FindEntry(old(entries), id).Some? && old(entries)[FindEntry(old(entries), id).value].brandId == requester ==>
        res == Ok("Removed from shortlist") && entries == Without(old(entries), id)
    {
      var found := FindEntry(entries, id);
      if found.None? {
        return Err(HttpError(404, "Shortlist item not found"));
      }
      if entries[found.value].brandId != requester {
        return Err(HttpError(403, "Not authorized"));
      }
      WithoutKeepsInvariant(entries, id, nextId);
      entries := Without(entries, id);
      res := Ok("Removed from shortlist");
    }
  }
}
