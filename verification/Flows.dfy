/** Projections of frame histories: the data chunks of one connection or of one producer,
    and the registrations and acknowledgements. */
module Flows {
  import opened Seqs
  import opened Frames
  import opened Decisions
  import L = Link

  datatype Sel =
    | To(k: Conn)      // data frames of connection k
    | From(i: nat)     // data frames produced by task i

  predicate Picks(sel: Sel, it: L.Item) {
    && it.frame.Data?
    && match sel
       case To(k) => Conn(it.frame.dataProxyId, it.frame.connId) == k
       case From(i) => it.origin == i
  }

  function One(sel: Sel, it: L.Item): seq<Bytes> {
    if Picks(sel, it) then [it.frame.data] else []
  }

  function Chunks(sel: Sel, s: seq<L.Item>): seq<Bytes> {
    if s == [] then [] else Chunks(sel, s[..|s| - 1]) + One(sel, s[|s| - 1])
  }

  function Regs(s: seq<L.Item>): seq<Frame> {
    if s == [] then []
    else Regs(s[..|s| - 1]) + (if s[|s| - 1].frame.Register? then [s[|s| - 1].frame] else [])
  }

  function Acks(s: seq<L.Item>): seq<Frame> {
    if s == [] then []
    else Acks(s[..|s| - 1]) + (if s[|s| - 1].frame.RegisterAck? then [s[|s| - 1].frame] else [])
  }

  lemma ChunksPush(sel: Sel, s: seq<L.Item>, it: L.Item)
    ensures Picks(sel, it) ==> Chunks(sel, s + [it]) == Chunks(sel, s) + [it.frame.data]
    ensures !Picks(sel, it) ==> Chunks(sel, s + [it]) == Chunks(sel, s)
  {
    assert (s + [it])[..|s|] == s;
  }

  lemma RegsPush(s: seq<L.Item>, it: L.Item)
    ensures it.frame.Register? ==> Regs(s + [it]) == Regs(s) + [it.frame]
    ensures !it.frame.Register? ==> Regs(s + [it]) == Regs(s)
  {
    assert (s + [it])[..|s|] == s;
  }

  lemma AcksPush(s: seq<L.Item>, it: L.Item)
    ensures it.frame.RegisterAck? ==> Acks(s + [it]) == Acks(s) + [it.frame]
    ensures !it.frame.RegisterAck? ==> Acks(s + [it]) == Acks(s)
  {
    assert (s + [it])[..|s|] == s;
  }

  lemma {:induction false} ChunksPrefix(sel: Sel, a: seq<L.Item>, b: seq<L.Item>)
    requires a <= b
    ensures Chunks(sel, a) <= Chunks(sel, b)
    decreases |b|
  {
    if a == b {
    } else {
      ChunksPrefix(sel, a, b[..|b| - 1]);
    }
  }

  lemma {:induction false} RegsPrefix(a: seq<L.Item>, b: seq<L.Item>)
    requires a <= b
    ensures Regs(a) <= Regs(b)
    decreases |b|
  {
    if a == b {
    } else {
      RegsPrefix(a, b[..|b| - 1]);
    }
  }

  lemma {:induction false} AcksPrefix(a: seq<L.Item>, b: seq<L.Item>)
    requires a <= b
    ensures Acks(a) <= Acks(b)
    decreases |b|
  {
    if a == b {
    } else {
      AcksPrefix(a, b[..|b| - 1]);
    }
  }

  /** Nothing was picked exactly when nothing is there to pick. */
  lemma {:induction false} ChunksEmpty(sel: Sel, s: seq<L.Item>)
    ensures Chunks(sel, s) == [] <==> forall x :: 0 <= x < |s| ==> !Picks(sel, s[x])
  {
    if s == [] {
    } else {
      ChunksEmpty(sel, s[..|s| - 1]);
      assert s == s[..|s| - 1] + [s[|s| - 1]];
    }
  }
}
