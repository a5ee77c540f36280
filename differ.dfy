/** The snapshot differ (`detect_new_formations`): the formations of this run
    whose identity did not occur in the previous run. */
module Differ {
  import opened Json
  import opened Records
  import opened Identity

  /** `{get_unique_id(f) for f in previous}`. */
  function IdSet(fs: seq<Formation>, render: Value -> string): set<string>
    reads fs
  {
    set f | f in fs :: UniqueId(f.fields, render)
  }

  function IsNew(ids: set<string>, render: Value -> string): Record -> bool {
    r => UniqueId(r, render) !in ids
  }

  /** An empty previous snapshot means a first run and yields no new
      formations; otherwise the formations of `current` whose identity is
      not among those of `previous`, in their original order. */
  function DetectNew(current: seq<Formation>, previous: seq<Formation>, render: Value -> string): (added: seq<Formation>)
    reads current, previous
    ensures previous == [] ==> added == []
    ensures |added| <= |current|
    ensures forall f :: f in added ==> f in current
  {
    if previous == [] then []
    else KeepWhere(current, Fields(current), IsNew(IdSet(previous, render), render))
  }

  /** The new formations keep the order they had in `current`. */
  lemma DetectNewIsSubsequence(current: seq<Formation>, previous: seq<Formation>, render: Value -> string)
    ensures IsSubsequence(DetectNew(current, previous, render), current)
  {
    if previous != [] {
      KeepWhereIsSubsequence(current, Fields(current), IsNew(IdSet(previous, render), render));
    }
  }

  /** After a first run, a formation is new exactly when it is in `current`
      and no formation of `previous` has its identity. */
  lemma DetectNewMembership(current: seq<Formation>, previous: seq<Formation>, render: Value -> string, f: Formation)
    requires previous != []
    ensures f in DetectNew(current, previous, render) <==>
              f in current && forall g :: g in previous ==> UniqueId(g.fields, render) != UniqueId(f.fields, render)
  {
    var rs := Fields(current);
    KeepWhereMembership(current, rs, IsNew(IdSet(previous, render), render), f);
  }

  /** Formations sharing an identity are not merged: each occurrence of a new
      formation is kept, each occurrence of a known one is dropped. */
  lemma DetectNewKeepsDuplicates(current: seq<Formation>, previous: seq<Formation>, render: Value -> string, f: Formation)
    requires previous != []
    ensures multiset(DetectNew(current, previous, render))[f] ==
              if UniqueId(f.fields, render) in IdSet(previous, render) then 0 else multiset(current)[f]
  {
    KeepWhereMultiplicity(current, Fields(current), IsNew(IdSet(previous, render), render), f, f.fields);
  }

  /** Comparing a snapshot with itself finds nothing new. */
  lemma DetectNewOfSelf(snapshot: seq<Formation>, render: Value -> string)
    ensures DetectNew(snapshot, snapshot, render) == []
  {
    if snapshot != [] {
      var rs := Fields(snapshot);
      var p := IsNew(IdSet(snapshot, render), render);
      forall i | 0 <= i < |rs| ensures !p(rs[i]) {
        assert snapshot[i] in snapshot;
      }
      KeepWhereNone(snapshot, rs, p);
    }
  }

  /** When no identity of `current` occurred before, every formation of
      `current` is new. */
  lemma DetectNewAllNew(current: seq<Formation>, previous: seq<Formation>, render: Value -> string)
    requires previous != []
    requires forall f, g :: f in current && g in previous ==> UniqueId(f.fields, render) != UniqueId(g.fields, render)
    ensures DetectNew(current, previous, render) == current
  {
    var rs := Fields(current);
    var p := IsNew(IdSet(previous, render), render);
    forall i | 0 <= i < |rs| ensures p(rs[i]) {
      assert current[i] in current;
    }
    KeepWhereAll(current, rs, p);
  }
}
