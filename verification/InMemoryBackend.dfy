// The control service's test double: the simple model of insertion and deletion.
module InMemoryBackend {
  import opened Prelude
  import opened FlowMaps

  /** The double's maps and its two fault switches. */
  datatype Memory = Memory(
    states: map<FlowKey, FlowState>,
    index: map<TupleKey, FlowKey>,
    pending: set<FlowKey>,
    releases: nat,
    failPublication: bool,
    abortGuard: bool)

  /** The entries that do not name this generation. */
  function Without(index: map<TupleKey, FlowKey>, k: FlowKey): map<TupleKey, FlowKey> {
    map t | t in index && index[t] != k :: index[t]
  }

  function Inserted(b: Memory, k: FlowKey, f: FlowState): Memory {
    b.(states := b.states[k := f], index := Indexed(b.index, k, f))
  }

  predicate OtherGeneration(states: map<FlowKey, FlowState>, k: FlowKey) {
    exists j :: j in states && j.flowId == k.flowId && j.generation != k.generation
  }

  /** The report and the maps after one delete. */
  function Deleted(b: Memory, k: FlowKey, observed: nat): (Memory, Report) {
    if k !in b.states then
      if k in b.pending then
        if b.failPublication then (b, NothingDone.(partial := true))
        else (b.(pending := b.pending - {k}, releases := b.releases + 1), NothingDone)
      else (b, NothingDone.(stale := OtherGeneration(b.states, k)))
    else if b.abortGuard || (observed != 0 && b.states[k].lastUsed != observed) then (b, Mismatch)
    else
      var rest := Without(b.index, k);
      var b' := b.(states := b.states - {k}, index := rest,
                   pending := if b.failPublication then b.pending + {k} else b.pending - {k},
                   releases := if b.failPublication then b.releases else b.releases + 1);
      FewerEntries(b.index, k);
      (b', Report(true, |b.index| - |rest|, b.failPublication, false, false))
  }

  lemma FewerEntries(index: map<TupleKey, FlowKey>, k: FlowKey)
    ensures |Without(index, k)| <= |index|
  {
    SubsetSize(Without(index, k).Keys, index.Keys);
  }

  /** Every index entry is one of its live state's tuples, and every live state is indexed. */
  ghost predicate Tied(states: map<FlowKey, FlowState>, index: map<TupleKey, FlowKey>) {
    && (forall t :: t in index ==> index[t] in states && HasTuple(states[index[t]], t))
    && (forall k :: k in states ==> exists t :: t in index && index[t] == k)
  }

  lemma IndexedTied(states: map<FlowKey, FlowState>, index: map<TupleKey, FlowKey>, k: FlowKey, f: FlowState)
    requires Tied(states, index) && k !in states && f.original !in index && f.target !in index && f.reverse !in index
    ensures Tied(states[k := f], Indexed(index, k, f))
  {
    var index' := Indexed(index, k, f);
    assert f.reverse in index' && index'[f.reverse] == k;
    var states' := states[k := f];
    forall j | j in states' ensures exists t :: t in index' && index'[t] == j {
      if j != k {
        var t :| t in index && index[t] == j;
        assert t in index' && index'[t] == j;
      }
    }
  }

  class Backend {
    var states: map<FlowKey, FlowState>
    var index: map<TupleKey, FlowKey>
    var pending: set<FlowKey>
    var releases: nat
    var failPublication: bool
    var abortGuard: bool

    constructor ()
      ensures Contents() == Memory(map[], map[], {}, 0, false, false)
    {
      states, index, pending, releases, failPublication, abortGuard := map[], map[], {}, 0, false, false;
    }

    function Contents(): Memory
      reads this
    {
      Memory(states, index, pending, releases, failPublication, abortGuard)
    }

    /** insert_flow_state. */
    method InsertFlowState(k: FlowKey, f: FlowState)
      modifies this
      ensures Contents() == Inserted(old(Contents()), k, f)
      ensures forall t :: HasTuple(f, t) ==> t in index && index[t] == k
      ensures forall t :: !HasTuple(f, t) ==> (t in index <==> t in old(index))
      ensures forall t :: !HasTuple(f, t) && t in index ==> index[t] == old(index)[t]
      ensures old(Tied(states, index)) && k !in old(states) && (forall t :: HasTuple(f, t) ==> t !in old(index)) ==>
                Tied(states, index)
    {
      if Tied(states, index) && k !in states && (forall t :: HasTuple(f, t) ==> t !in index) {
        IndexedTied(states, index, k, f);
      }
      states := states[k := f];
      index := index[f.original := k];
      index := index[f.target := k];
      index := index[f.reverse := k];
    }

    /** retain: drops the entries of one generation, one by one. */
    method Retain(k: FlowKey)
      modifies this`index
      ensures index == Without(old(index), k)
    {
      var left := index.Keys;
      ghost var before := index;
      while left != {}
        invariant left <= index.Keys <= before.Keys
        invariant forall t :: t in index ==> index[t] == before[t]
        invariant forall t :: t in before && (before[t] != k || t in left) ==> t in index
        invariant forall t :: t in index && t !in left ==> index[t] != k
        decreases left
      {
        var t :| t in left;
        left := left - {t};
        if index[t] == k { index := index - {t}; }
      }
    }

    /** delete_flow. */
    method DeleteFlow(k: FlowKey, observed: nat) returns (r: Report)
      modifies this
      ensures (Contents(), r) == Deleted(old(Contents()), k, observed)
    {
      if k !in states {
        if k in pending {
          if failPublication { return NothingDone.(partial := true); }
          pending, releases := pending - {k}, releases + 1;
          return NothingDone;
        }
        return NothingDone.(stale := OtherGeneration(states, k));
      }
      if abortGuard { return Mismatch; }
      if observed != 0 && states[k].lastUsed != observed { return Mismatch; }
      pending := pending + {k};
      states := states - {k};
      var before := |index|;
      FewerEntries(index, k);
      Retain(k);
      var partial := failPublication;
      assert old(pending) + {k} - {k} == old(pending) - {k};
      if !partial { pending, releases := pending - {k}, releases + 1; }
      r := Report(true, before - |index|, partial, false, false);
    }
  }
}
