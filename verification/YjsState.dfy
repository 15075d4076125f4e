/** Yjs documents as join-semilattice values (backend/src/collaboration/yjs_state.rs).

  A Yjs update is a finite set of uniquely identified operations and applying it is set
  union, so merging is associative, commutative and idempotent and nothing else is known of
  it. What text an operation set renders to, and which operations a canonical text is
  seeded with, is left to an arbitrary `Codec`. */
module YjsState {
  import opened Wrappers

  datatype Op = Op(client: nat, clock: nat)

  type Ops = set<Op>

  datatype Codec = Codec(text: Ops -> string, seed: string -> Ops)

  /** A seeded document renders the text it was seeded with. */
  ghost predicate SeedRoundTrips(codec: Codec) {
    forall content: string :: codec.text(codec.seed(content)) == content
  }

  function Join(updates: seq<Ops>): (ops: Ops)
    ensures forall op :: op in ops <==> exists i :: 0 <= i < |updates| && op in updates[i]
  {
    if updates == [] then {} else updates[0] + Join(updates[1..])
  }

  function Base(snapshot: Option<Ops>): Ops {
    if snapshot.Some? then snapshot.value else {}
  }

  /** The state a document holds after its optional snapshot and then every update was applied. */
  function Merged(snapshot: Option<Ops>, updates: seq<Ops>): Ops {
    Base(snapshot) + Join(updates)
  }

  lemma JoinAppend(updates: seq<Ops>, last: Ops)
    ensures Join(updates + [last]) == Join(updates) + last
  {
    var longer := updates + [last];
    assert longer[|updates|] == last;
    forall op | op in Join(updates)
      ensures op in Join(longer)
    {
      var i :| 0 <= i < |updates| && op in updates[i];
      assert longer[i] == updates[i];
    }
  }

  /** Delivering the same updates again, in any order and any number of times, changes nothing. */
  lemma MergeIgnoresOrderAndRepetition(snapshot: Option<Ops>, updates: seq<Ops>, delivered: seq<Ops>)
    requires forall i :: 0 <= i < |delivered| ==> delivered[i] in updates
    requires forall i :: 0 <= i < |updates| ==> updates[i] in delivered
    ensures Merged(snapshot, delivered) == Merged(snapshot, updates)
  {
    forall op
      ensures op in Join(delivered) <==> op in Join(updates)
    {
      if op in Join(delivered) {
        var i :| 0 <= i < |delivered| && op in delivered[i];
        var j :| 0 <= j < |updates| && updates[j] == delivered[i];
      }
      if op in Join(updates) {
        var i :| 0 <= i < |updates| && op in updates[i];
        var j :| 0 <= j < |delivered| && delivered[j] == updates[i];
      }
    }
  }

  /** Replaying what a snapshot already contains is harmless, so compaction may overlap its log. */
  lemma CompactionIsIdempotent(snapshot: Option<Ops>, covered: seq<Ops>, rest: seq<Ops>)
    ensures Merged(Some(Merged(snapshot, covered)), covered + rest) == Merged(snapshot, covered + rest)
    ensures Merged(Some(Merged(snapshot, covered)), rest) == Merged(snapshot, covered + rest)
  {
    var all := covered + rest;
    forall op | op in Join(covered) + Join(rest)
      ensures op in Join(all)
    {
      if op in Join(covered) {
        var i :| 0 <= i < |covered| && op in covered[i];
        assert all[i] == covered[i];
      } else {
        var i :| 0 <= i < |rest| && op in rest[i];
        assert all[|covered| + i] == rest[i];
      }
    }
    forall op | op in Join(all)
      ensures op in Join(covered) + Join(rest)
    {
      var i :| 0 <= i < |all| && op in all[i];
      if i < |covered| {
        assert covered[i] == all[i];
      } else {
        assert rest[i - |covered|] == all[i];
      }
    }
  }

  /** Applies the updates one by one to a fresh document and renders it. */
  method MergeUpdates(codec: Codec, snapshot: Option<Ops>, updates: seq<Ops>)
    returns (update: Ops, text: string)
    ensures update == Merged(snapshot, updates)
    ensures text == codec.text(update)
  {
    var document: Ops := {};
    if snapshot.Some? {
      document := document + snapshot.value;
    }
    for i := 0 to |updates|
      invariant document == Base(snapshot) + Join(updates[..i])
    {
      JoinAppend(updates[..i], updates[i]);
      assert updates[..i + 1] == updates[..i] + [updates[i]];
      document := document + updates[i];
    }
    assert updates[..|updates|] == updates;
    return document, codec.text(document);
  }
}
