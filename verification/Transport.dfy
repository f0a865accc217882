/** The in-memory streams: publish, read, acknowledge, recover
  (engine/core/src/transport.cpp). A read returns at once; waiting for a
  message is left to the caller. */
module Transports {
  import opened Ids

  type Group = string

  datatype Message = Message(id: nat, payload: string)

  /** One stream, with the cursor and the delivered but unacknowledged ids of
    each group. */
  datatype Stream = Stream(messages: seq<Message>, cursor: map<Group, nat>, pending: map<Group, seq<nat>>)

  const EMPTY := Stream([], map[], map[])

  function Pending(s: Stream, g: Group): seq<nat> {
    if g in s.pending then s.pending[g] else []
  }

  /** Up to where the group has read. */
  function Cursor(s: Stream, g: Group): nat {
    if g in s.cursor then s.cursor[g] else 0
  }

  function IdsOf(messages: seq<Message>): seq<nat> {
    seq(|messages|, i requires 0 <= i < |messages| => messages[i].id)
  }

  predicate Deliverable(s: Stream, g: Group) {
    g in s.cursor && s.cursor[g] < |s.messages|
  }

  function Joined(s: Stream, g: Group): Stream {
    s.(cursor := if g in s.cursor then s.cursor else s.cursor[g := 0],
       pending := if g in s.pending then s.pending else s.pending[g := []])
  }

  function Delivered(s: Stream, g: Group): Stream
    requires Deliverable(s, g)
  {
    s.(cursor := s.cursor[g := s.cursor[g] + 1],
       pending := s.pending[g := Pending(s, g) + [s.messages[s.cursor[g]].id]])
  }

  function Without(ids: seq<nat>, id: nat): seq<nat> {
    if ids == [] then [] else if ids[0] == id then ids[1..] else [ids[0]] + Without(ids[1..], id)
  }

  function Acked(s: Stream, g: Group, id: nat): Stream {
    if g in s.pending then s.(pending := s.pending[g := Without(s.pending[g], id)]) else s
  }

  lemma AckFirst(s: Stream, g: Group)
    requires Pending(s, g) != []
    ensures var s' := Acked(s, g, Pending(s, g)[0]);
      && Pending(s, g) == [Pending(s, g)[0]] + Pending(s', g) && s'.messages == s.messages
      && Cursor(s', g) == Cursor(s, g)
  {
  }

  /** The index of the first message with the id; |messages| if there is none. */
  function IndexOf(messages: seq<Message>, id: nat): (i: nat)
    ensures i <= |messages| && (i < |messages| ==> messages[i].id == id)
    ensures forall j :: 0 <= j < i ==> messages[j].id != id
  {
    if messages == [] || messages[0].id == id then 0 else 1 + IndexOf(messages[1..], id)
  }

  function Earliest(messages: seq<Message>, ids: seq<nat>): (i: nat)
    ensures i <= |messages|
  {
    if ids == [] then |messages|
    else
      var rest := Earliest(messages, ids[..|ids| - 1]);
      var last := IndexOf(messages, ids[|ids| - 1]);
      if last < rest then last else rest
  }

  function Reclaimed(s: Stream, g: Group): Stream {
    if Pending(s, g) == [] then s
    else s.(cursor := s.cursor[g := Earliest(s.messages, s.pending[g])], pending := s.pending[g := []])
  }

  // ------------------------------------------------------------------------
  // No message is lost
  // ------------------------------------------------------------------------

  /** Everything the group has read is pending or has been acknowledged, and
    only what it has read is pending, each once. */
  ghost predicate NothingLost(s: Stream, g: Group, acked: set<nat>) {
    && Cursor(s, g) <= |s.messages|
    && Distinct(IdsOf(s.messages)) && Distinct(Pending(s, g))
    && (forall i {:trigger s.messages[i]} :: 0 <= i < Cursor(s, g) ==>
          s.messages[i].id in Pending(s, g) || s.messages[i].id in acked)
    && (forall id :: id in Pending(s, g) ==> IndexOf(s.messages, id) < Cursor(s, g))
  }

  lemma SameId(messages: seq<Message>, i: nat, j: nat)
    requires Distinct(IdsOf(messages)) && i < |messages| && j < |messages| && messages[i].id == messages[j].id
    ensures i == j
  {
    assert IdsOf(messages)[i] == messages[i].id && IdsOf(messages)[j] == messages[j].id;
  }

  lemma {:induction false} IndexInPrefix(messages: seq<Message>, m: Message, id: nat)
    ensures IndexOf(messages, id) < |messages| ==> IndexOf(messages + [m], id) == IndexOf(messages, id)
  {
    if messages != [] && messages[0].id != id {
      assert (messages + [m])[1..] == messages[1..] + [m];
      IndexInPrefix(messages[1..], m, id);
    }
  }

  lemma JoinKeeps(s: Stream, g: Group, acked: set<nat>)
    requires NothingLost(s, g, acked)
    ensures NothingLost(Joined(s, g), g, acked)
  {
  }

  lemma PublishKeeps(s: Stream, m: Message, g: Group, acked: set<nat>)
    requires NothingLost(s, g, acked) && forall i :: 0 <= i < |s.messages| ==> s.messages[i].id < m.id
    ensures NothingLost(s.(messages := s.messages + [m]), g, acked)
  {
    var s' := s.(messages := s.messages + [m]);
    assert IdsOf(s'.messages) == IdsOf(s.messages) + [m.id];
    forall id | id in Pending(s', g) ensures IndexOf(s'.messages, id) < Cursor(s', g) {
      IndexInPrefix(s.messages, m, id);
    }
    forall i | 0 <= i < Cursor(s', g) ensures s'.messages[i].id in Pending(s', g) || s'.messages[i].id in acked {
      assert s'.messages[i] == s.messages[i];
    }
  }

  lemma ReadKeeps(s: Stream, g: Group, acked: set<nat>)
    requires NothingLost(s, g, acked) && Deliverable(s, g)
    ensures NothingLost(Delivered(s, g), g, acked)
  {
    var s', i := Delivered(s, g), s.cursor[g];
    var id := s.messages[i].id;
    var at := IndexOf(s.messages, id);
    SameId(s.messages, at, i);
    assert id !in Pending(s, g);
    assert Pending(s', g) == Pending(s, g) + [id];
  }

  lemma {:induction false} WithoutKeeps(ids: seq<nat>, id: nat)
    requires Distinct(ids)
    ensures Distinct(Without(ids, id)) && forall x :: x in Without(ids, id) <==> x in ids && x != id
    ensures |Without(ids, id)| == |ids| - if id in ids then 1 else 0
  {
    if ids != [] {
      var first, rest := ids[0], ids[1..];
      assert ids == [first] + rest;
      forall i, j | 0 <= i < j < |rest| ensures rest[i] != rest[j] { assert ids[i + 1] == rest[i] && ids[j + 1] == rest[j]; }
      forall x | x in rest ensures x != first {
        var i :| 0 <= i < |rest| && rest[i] == x;
        assert ids[i + 1] == x;
      }
      if first != id {
        WithoutKeeps(rest, id);
        var kept := Without(rest, id);
        assert Without(ids, id) == [first] + kept;
        forall i, j | 0 <= i < j < |[first] + kept| ensures ([first] + kept)[i] != ([first] + kept)[j] {
          assert ([first] + kept)[j] == kept[j - 1] && kept[j - 1] in kept;
          if i > 0 { assert ([first] + kept)[i] == kept[i - 1]; }
        }
      }
    }
  }

  lemma AckKeeps(s: Stream, g: Group, id: nat, acked: set<nat>)
    requires NothingLost(s, g, acked)
    ensures NothingLost(Acked(s, g, id), g, acked + {id})
  {
    WithoutKeeps(Pending(s, g), id);
  }

  lemma {:induction false} EarliestBounds(messages: seq<Message>, ids: seq<nat>)
    ensures forall id :: id in ids ==> Earliest(messages, ids) <= IndexOf(messages, id)
    ensures ids != [] ==> exists id :: id in ids && Earliest(messages, ids) <= IndexOf(messages, id)
  {
    if ids != [] {
      var front, last := ids[..|ids| - 1], ids[|ids| - 1];
      EarliestBounds(messages, front);
      assert ids == front + [last] && last in ids;
    }
  }

  /** After a reclaim the group reads on from its earliest pending message; what
    lies before it was acknowledged. */
  lemma ReclaimKeeps(s: Stream, g: Group, acked: set<nat>)
    requires NothingLost(s, g, acked)
    ensures NothingLost(Reclaimed(s, g), g, acked)
    ensures Cursor(Reclaimed(s, g), g) <= Cursor(s, g)
  {
    var ids := Pending(s, g);
    if ids != [] {
      EarliestBounds(s.messages, ids);
      var first := Earliest(s.messages, ids);
      assert ids[0] in ids;
      forall i | 0 <= i < first ensures s.messages[i].id in acked {
        if s.messages[i].id in ids {
          SameId(s.messages, i, IndexOf(s.messages, s.messages[i].id));
        }
      }
    }
  }

  // ------------------------------------------------------------------------
  // The transport
  // ------------------------------------------------------------------------

  class InMemoryTransport {
    var streams: map<string, Stream>
    var next: nat
    /** Per stream and group, every id that was ever acknowledged. */
    ghost var acked: map<(string, Group), set<nat>>

    function Of(key: string): Stream
      reads this
    {
      if key in streams then streams[key] else EMPTY
    }

    ghost function AckedBy(key: string, g: Group): set<nat>
      reads this
    {
      if (key, g) in acked then acked[(key, g)] else {}
    }

    /** In every stream ids grow, and no group has lost a message. */
    ghost predicate Valid()
      reads this
    {
      && (forall key, i :: key in streams && 0 <= i < |streams[key].messages| ==> streams[key].messages[i].id < next)
      && (forall key, g {:trigger NothingLost(Of(key), g, AckedBy(key, g))} :: NothingLost(Of(key), g, AckedBy(key, g)))
    }

    constructor ()
      ensures Valid() && streams == map[] && forall key, g :: AckedBy(key, g) == {}
    {
      streams, next, acked := map[], 0, map[];
    }

    method EnsureGroup(key: string, g: Group)
      requires Valid()
      modifies this
      ensures Valid() && acked == old(acked) && streams == old(streams)[key := Joined(old(Of(key)), g)]
    {
      var s := Of(key);
      streams := streams[key := Joined(s, g)];
      forall k, h ensures NothingLost(Of(k), h, AckedBy(k, h)) {
        assert old(NothingLost(Of(k), h, AckedBy(k, h)));
        if k == key { if h == g { JoinKeeps(s, g, AckedBy(k, h)); } else { OtherGroup(s, Joined(s, g), h, AckedBy(k, h)); } }
      }
    }

    method Publish(key: string, payload: string) returns (id: nat)
      requires Valid()
      modifies this
      ensures Valid() && acked == old(acked) && id == old(next)
      ensures streams == old(streams)[key := old(Of(key)).(messages := old(Of(key)).messages + [Message(id, payload)])]
    {
      var s := Of(key);
      id := next;
      next := next + 1;
      streams := streams[key := s.(messages := s.messages + [Message(id, payload)])];
      forall k, h ensures NothingLost(Of(k), h, AckedBy(k, h)) {
        assert old(NothingLost(Of(k), h, AckedBy(k, h)));
        if k == key { PublishKeeps(s, Message(id, payload), h, AckedBy(k, h)); }
      }
    }

    /** The next message the group has not read; it is pending from now on. */
    method Read(key: string, g: Group) returns (m: Option<Message>)
      requires Valid()
      modifies this
      ensures Valid() && acked == old(acked)
      ensures m == if Deliverable(old(Of(key)), g) then Some(old(Of(key)).messages[old(Of(key)).cursor[g]]) else None
      ensures streams == if m.Some? then old(streams)[key := Delivered(old(Of(key)), g)] else old(streams)
    {
      m := None;
      if key in streams {
        var s := streams[key];
        if g in s.cursor && s.cursor[g] < |s.messages| {
          m := Some(s.messages[s.cursor[g]]);
          streams := streams[key := Delivered(s, g)];
          forall k, h ensures NothingLost(Of(k), h, AckedBy(k, h)) {
            assert old(NothingLost(Of(k), h, AckedBy(k, h)));
            if k == key { if h == g { ReadKeeps(s, g, AckedBy(k, h)); } else { OtherGroup(s, Delivered(s, g), h, AckedBy(k, h)); } }
          }
        }
      }
    }

    method Ack(key: string, g: Group, id: nat)
      requires Valid()
      modifies this
      ensures Valid() && streams == if key in old(streams) then old(streams)[key := Acked(old(Of(key)), g, id)] else old(streams)
      ensures forall k, h :: AckedBy(k, h) == old(AckedBy(k, h)) + if k == key && h == g then {id} else {}
    {
      acked := acked[(key, g) := AckedBy(key, g) + {id}];
      var s := Of(key);
      if key in streams { streams := streams[key := Acked(s, g, id)]; }
      forall k, h ensures NothingLost(Of(k), h, AckedBy(k, h)) {
        assert old(NothingLost(Of(k), h, AckedBy(k, h)));
        if k == key { if h == g { AckKeeps(s, g, id, old(AckedBy(k, h))); } else { OtherGroup(s, Acked(s, g, id), h, AckedBy(k, h)); } }
      }
    }

    /** The oldest pending message, which stays pending. */
    method ReadPending(key: string, g: Group) returns (m: Option<Message>)
      requires Valid()
      ensures m.Some? <==> Pending(Of(key), g) != []
      ensures m.Some? ==>
                var s := Of(key); var i := IndexOf(s.messages, Pending(s, g)[0]); i < |s.messages| && m.value == s.messages[i]
    {
      assert NothingLost(Of(key), g, AckedBy(key, g));
      if key !in streams { return None; }
      var s := streams[key];
      if g !in s.pending || s.pending[g] == [] { return None; }
      var i := IndexOf(s.messages, s.pending[g][0]);
      assert s.pending[g][0] in Pending(s, g);
      m := Some(s.messages[i]);
    }

    method ReclaimPending(key: string, g: Group) returns (count: nat)
      requires Valid()
      modifies this
      ensures Valid() && acked == old(acked) && count == |Pending(old(Of(key)), g)|
      ensures streams == if count > 0 then old(streams)[key := Reclaimed(old(Of(key)), g)] else old(streams)
    {
      if key !in streams { return 0; }
      var s := streams[key];
      if g !in s.pending || s.pending[g] == [] { return 0; }
      count := |s.pending[g]|;
      streams := streams[key := Reclaimed(s, g)];
      forall k, h ensures NothingLost(Of(k), h, AckedBy(k, h)) {
        assert old(NothingLost(Of(k), h, AckedBy(k, h)));
        if k == key { if h == g { ReclaimKeeps(s, g, AckedBy(k, h)); } else { OtherGroup(s, Reclaimed(s, g), h, AckedBy(k, h)); } }
      }
    }

    /** Reads until the batch is full or nothing is left. */
    method ReadBatch(key: string, g: Group, max: nat) returns (batch: seq<Message>)
      requires Valid()
      modifies this
      ensures Valid() && acked == old(acked)
      ensures var s := old(Of(key)); var c := Cursor(s, g);
        batch == if g in s.cursor && c <= |s.messages|
                 then s.messages[c..if c + max <= |s.messages| then c + max else |s.messages|]
                 else []
    {
      batch := [];
      ghost var s := Of(key);
      assert NothingLost(s, g, AckedBy(key, g));
      ghost var c := Cursor(s, g);
      while |batch| < max
        invariant Valid() && acked == old(acked) && |batch| <= max
        invariant Of(key).messages == s.messages && (g in Of(key).cursor <==> g in s.cursor)
        invariant g in s.cursor ==> Cursor(Of(key), g) == c + |batch| <= |s.messages| && batch == s.messages[c..c + |batch|]
        invariant g !in s.cursor ==> batch == []
        decreases max - |batch|
      {
        var m := Read(key, g);
        if m.None? { break; }
        batch := batch + [m.value];
      }
    }
  }

  /** An operation of one group leaves the others as they were. */
  lemma OtherGroup(s: Stream, s': Stream, h: Group, acked: set<nat>)
    requires NothingLost(s, h, acked) && s'.messages == s.messages
    requires Cursor(s', h) == Cursor(s, h) && Pending(s', h) == Pending(s, h)
    ensures NothingLost(s', h, acked)
  {
  }
}
