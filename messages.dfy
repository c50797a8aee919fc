/**
 * The message routes: create (sender is the requester, unread), the
 * requester's messages newest first, and recipient-only mark-read.
 */
module Messages {
  import opened Wrappers
  import opened Seqs

  /** One message document; `id` stands for its ObjectId, `createdAt` is the timestamp Mongoose adds. */
  datatype Message = Message(
    id: nat,
    from: string,
    to: string,
    content: string,
    isRead: bool,
    relatedInfluencer: Option<string>,
    collaborationRequest: bool,
    createdAt: int)

  /** The requester sent or received the message. */
  predicate Involves(m: Message, user: string) {
    m.from == user || m.to == user
  }

  /** Newest first: `createdAt` never increases along the list. */
  predicate NewestFirst(ms: seq<Message>) {
    forall i, j :: 0 <= i < j < |ms| ==> ms[i].createdAt >= ms[j].createdAt
  }

  /** Places `m` before the first message that is older than it. */
  function Insert(m: Message, sorted: seq<Message>): (r: seq<Message>)
    ensures multiset(r) == multiset(sorted) + multiset{m}
    ensures |r| == |sorted| + 1 && (r[0] == m || (|sorted| > 0 && r[0] == sorted[0]))
  {
    if sorted == [] then [m]
    else if m.createdAt >= sorted[0].createdAt then [m] + sorted
    else
      assert sorted == [sorted[0]] + sorted[1..];
      [sorted[0]] + Insert(m, sorted[1..])
  }

  /** Inserting into a newest-first list keeps it newest first. */
  lemma {:induction false} InsertNewestFirst(m: Message, sorted: seq<Message>)
    requires NewestFirst(sorted)
    ensures NewestFirst(Insert(m, sorted))
  {
    var r := Insert(m, sorted);
    if sorted == [] {
    } else if m.createdAt >= sorted[0].createdAt {
      forall i, j | 0 <= i < j < |r|
        ensures r[i].createdAt >= r[j].createdAt
      {
        if i == 0 {
          assert r[j] == sorted[j - 1];
        } else {
          assert r[i] == sorted[i - 1] && r[j] == sorted[j - 1];
        }
      }
    } else {
      var tail := sorted[1..];
      assert NewestFirst(tail) by {
        forall i, j | 0 <= i < j < |tail|
          ensures tail[i].createdAt >= tail[j].createdAt
        {
          assert tail[i] == sorted[i + 1] && tail[j] == sorted[j + 1];
        }
      }
      InsertNewestFirst(m, tail);
      var rest := Insert(m, tail);
      assert r == [sorted[0]] + rest;
      assert sorted[0].createdAt >= rest[0].createdAt by {
        if rest[0] != m {
          assert rest[0] == sorted[1];
        }
      }
      forall i, j | 0 <= i < j < |r|
        ensures r[i].createdAt >= r[j].createdAt
      {
        assert r[j] == rest[j - 1];
        if i > 0 {
          assert r[i] == rest[i - 1];
        } else if j > 1 {
          assert rest[0].createdAt >= rest[j - 1].createdAt;
        }
      }
    }
  }

  /**
   * `.sort({ createdAt: -1 })`. The database promises no order among equal
   * timestamps; this definition puts a later-listed message before earlier equal ones.
   */
  function SortNewestFirst(ms: seq<Message>): (r: seq<Message>)
    ensures multiset(r) == multiset(ms)
    ensures NewestFirst(r)
  {
    if ms == [] then []
    else
      assert ms == ms[..|ms| - 1] + [ms[|ms| - 1]];
      var sorted := SortNewestFirst(ms[..|ms| - 1]);
      InsertNewestFirst(ms[|ms| - 1], sorted);
      Insert(ms[|ms| - 1], sorted)
  }

  /** `GET /`: the requester's messages, sent or received, newest first. */
  function Inbox(ms: seq<Message>, user: string): (r: seq<Message>)
    ensures forall m :: m in r <==> m in ms && Involves(m, user)
    ensures NewestFirst(r)
    ensures multiset(r) == multiset(Filter(ms, (m: Message) => Involves(m, user)))
  {
    var mine := Filter(ms, (m: Message) => Involves(m, user));
    var r := SortNewestFirst(mine);
    forall m
      ensures m in r <==> m in ms && Involves(m, user)
    {
      FilterMembership(ms, (m: Message) => Involves(m, user), m);
      assert m in r <==> m in multiset(r);
      assert m in mine <==> m in multiset(mine);
    }
    r
  }

  /** The message at `i` marked read, every other message and field as it was. */
  function MarkAt(ms: seq<Message>, i: nat): (r: seq<Message>)
    requires i < |ms|
    ensures |r| == |ms| && r[i].isRead
    ensures r[i] == ms[i].(isRead := true)
    ensures forall j :: 0 <= j < |ms| && j != i ==> r[j] == ms[j]
  {
    ms[i := ms[i].(isRead := true)]
  }

  /** Marking a message read twice is marking it once. */
  lemma {:induction false} MarkAtIdempotent(ms: seq<Message>, i: nat)
    requires i < |ms|
    ensures MarkAt(MarkAt(ms, i), i) == MarkAt(ms, i)
  {
    var once := MarkAt(ms, i);
    var twice := MarkAt(once, i);
    assert |twice| == |once|;
    forall j | 0 <= j < |once|
      ensures twice[j] == once[j]
    {
      if j == i {
        assert twice[i] == once[i].(isRead := true);
        assert once[i].isRead;
      }
    }
  }

  /** `Message.findById(id)`: the position of the message with that id. */
  function FindMessage(ms: seq<Message>, id: nat): (found: Option<nat>)
    ensures found.Some? ==> found.value < |ms| && ms[found.value].id == id
    ensures found.None? ==> forall k :: 0 <= k < |ms| ==> ms[k].id != id
  {
    IndexWhere(ms, (m: Message) => m.id == id)
  }

  /** The message collection and its ObjectId counter. */
  class MessageTable {
    var messages: seq<Message>
    var nextId: nat

    /** Ids are below the counter and increase along the table. */
    ghost predicate Valid()
      reads this
    {
      (forall i :: 0 <= i < |messages| ==> messages[i].id < nextId) &&
      (forall i, j :: 0 <= i < j < |messages| ==> messages[i].id < messages[j].id)
    }

    constructor()
      ensures messages == [] && Valid()
    {
      messages := [];
      nextId := 0;
    }

    /**
     * `POST /` at time `now`: 400 unless both `to` and `content` are
     * non-empty; otherwise a message from the requester, unread, with
     * `collaborationRequest` defaulting to false (answered with 201).
     */
    method Create(requester: string, to: Option<string>, content: Option<string>,
                  relatedInfluencer: Option<string>, collaborationRequest: Option<bool>, now: int)
      returns (res: Result<Message>)
      requires Valid()
      modifies this
      ensures Valid()
      ensures !Present(to) || !Present(content) ==>
        res == Err(HttpError(400, "Missing required fields")) && messages == old(messages) && nextId == old(nextId)
      ensures Present(to) && Present(content) ==>
        && res.Ok?
        && res.value == Message(old(nextId), requester, to.value, content.value, false, relatedInfluencer,
                                collaborationRequest.Some? && collaborationRequest.value, now)
        && messages == old(messages) + [res.value]
        && nextId == old(nextId) + 1
    {
      if !Present(to) || !Present(content) {
        return Err(HttpError(400, "Missing required fields"));
      }
      var collab := if collaborationRequest.Some? then collaborationRequest.value else false;
      var m := Message(nextId, requester, to.value, content.value, false, relatedInfluencer, collab, now);
      messages := messages + [m];
      nextId := nextId + 1;
      res := Ok(m);
    }

    /** `GET /`. */
    function MessagesFor(user: string): (r: seq<Message>)
      reads this
      ensures forall m :: m in r <==> m in messages && Involves(m, user)
      ensures NewestFirst(r)
    {
      Inbox(messages, user)
    }

    /**
     * `PUT /:id/read`: 404 for an unknown id, 403 unless the requester is the
     * recipient; otherwise only that message's `isRead` becomes true.
     */
    method MarkRead(requester: string, id: nat) returns (res: Result<Message>)
      requires Valid()
      modifies this
      ensures Valid() && nextId == old(nextId)
      ensures FindMessage(old(messages), id).None? ==>
        res == Err(HttpError(404, "Message not found")) && messages == old(messages)
      ensures FindMessage(old(messages), id).Some? && old(messages)[FindMessage(old(messages), id).value].to != requester ==>
        res == Err(HttpError(403, "Not authorized")) && messages == old(messages)
      ensures FindMessage(old(messages), id).Some? && old(messages)[FindMessage(old(messages), id).value].to == requester ==>
        var i := FindMessage(old(messages), id).value;
        messages == MarkAt(old(messages), i) && res == Ok(messages[i])
    {
      var found := FindMessage(messages, id);
      if found.None? {
        return Err(HttpError(404, "Message not found"));
      }
      var i := found.value;
      if messages[i].to != requester {
        return Err(HttpError(403, "Not authorized"));
      }
      messages := messages[i := messages[i].(isRead := true)];
      res := Ok(messages[i]);
    }
  }
}
