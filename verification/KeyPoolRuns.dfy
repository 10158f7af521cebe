/** The key pool over whole runs: cache and list mirror the database, and every key has a life of its own. */
module KeyPoolRuns {
  import opened Wrappers
  import opened RateLedger
  import opened KeyPool
  import opened KeySelection
  import opened KeyPoolSteps

  // ----- Adding, syncing and selecting -----

  /** The keys added are listed and cached, and live as they were given. */
  lemma {:induction false} AddedLives(p: Pool, keys: seq<NewKey>)
    requires Inv(p) && FreshKeys(p, keys)
    ensures var r := Added(p, keys);
            && Mirrored(r) && NoDup(r.list) && r.list == IdsOf(keys) + p.list
            && forall x :: LifeOf(r, x) == if x in IdsOf(keys) then BornIn(keys, x) else LifeOf(p, x)
    ensures forall x :: x in IdsOf(keys) <==> BornIn(keys, x) != Absent
    ensures forall i :: 0 <= i < |keys| ==> BornIn(keys, keys[i].id) == Alive(keys[i].row.status, keys[i].row.fails)
  {
    StoredSteps(p, keys);
    AddedList(p, keys);
    BornAsGiven(keys);
    var q, r := Stored(p, keys), Added(p, keys);
    assert r == q.(list := IdsOf(keys) + p.list);
    hide Stored, Added, FreshKeys, BornIn, NoDup;
    assert forall x :: LifeOf(r, x) == LifeOf(q, x);
  }

  lemma {:induction false} ListedActive(r: Pool, keys: seq<NewKey>, i: nat)
    requires i < |keys| && IdsOf(keys) <= r.list && LifeOf(r, keys[i].id) == Alive(keys[i].row.status, keys[i].row.fails)
    requires Listed(r)
    ensures keys[i].row.status == Active
  {
    assert IdsOf(keys)[i] in r.list;
  }

  lemma {:induction false} AddedAsStep(keys: seq<NewKey>, l: Life, id: Id)
    ensures Live1(l, id, AddKeys(keys)) == if BornIn(keys, id) == Absent then l else BornIn(keys, id)
  {
  }

  /** Adding keeps the pool consistent exactly when every added key is active. */
  lemma {:induction false} AddKeepsIff(p: Pool, keys: seq<NewKey>)
    requires Inv(p) && FreshKeys(p, keys)
    ensures Inv(Added(p, keys)) <==> forall i :: 0 <= i < |keys| ==> keys[i].row.status == Active
    ensures forall x :: LifeOf(Added(p, keys), x) == Live1(LifeOf(p, x), x, AddKeys(keys))
  {
    var r := Added(p, keys);
    AddedLives(p, keys);
    hide *;
    InvIs(p);
    InvIs(r);
    forall x
      ensures LifeOf(r, x) == Live1(LifeOf(p, x), x, AddKeys(keys))
    {
      AddedAsStep(keys, LifeOf(p, x), x);
    }
    if forall i :: 0 <= i < |keys| ==> keys[i].row.status == Active {
      AllActiveListed(p, r, keys);
    } else if Listed(r) {
      var i :| 0 <= i < |keys| && keys[i].row.status != Active;
      IdAt(keys, i);
      ListedActive(r, keys, i);
    }
  }

  lemma {:induction false} IdAt(keys: seq<NewKey>, i: nat)
    requires i < |keys|
    ensures keys[i].id in IdsOf(keys)
  {
    assert IdsOf(keys)[i] == keys[i].id;
  }

  /** A consistent pool has nothing to repair. */
  lemma {:induction false} SyncIsIdle(p: Pool, ids: seq<Id>)
    requires Inv(p) && forall id :: id in ids ==> id in p.db
    ensures Synced(p, ids) == p
  {
    if ids != [] {
      var id := ids[|ids| - 1];
      SyncIsIdle(p, ids[..|ids| - 1]);
      if !ActiveRow(p, id) {
        WithoutMembers(p.list, id);
      }
      if id in p.hash {
        assert p.hash[id] == EntryOf(p.db[id]);
        assert p.hash[id := p.hash[id]] == p.hash;
      } else {
        assert p.hash - {id} == p.hash;
      }
    }
  }

  /** Selecting from a consistent pool only turns the list. */
  lemma {:induction false} SelectOnlyRotates(p: Pool, s: Scene)
    requires Inv(p)
    ensures var q := Selected(p, s).0;
            q.db == p.db && q.hash == p.hash && IsRotation(p.list, q.list) && Inv(q)
  {
    var q := Selected(p, s).0;
    SelectionTidies(p, s);
    forall id | id in p.list
      ensures id in q.list
    {
      assert ActiveRow(p, id);
      assert id in p.hash && p.hash[id] == EntryOf(p.db[id]);
    }
    assert forall id :: id in p.hash ==> id in q.hash;
    assert q.hash == p.hash;
    KeepAll(p.list, Elems(q.list));
    RotationKeeps(p.list, q.list);
    forall id
      ensures id in q.list <==> ActiveRow(q, id)
    {
      assert id in p.list <==> ActiveRow(p, id);
    }
  }

  lemma {:induction false} RotationKeeps(a: seq<Id>, b: seq<Id>)
    requires IsRotation(a, b) && NoDup(a)
    ensures NoDup(b)
    ensures forall id :: id in a <==> id in b
  {
    var k :| 0 <= k <= |a| && b == a[k..] + a[..k];
    RotationNoDup(a, k);
    hide NoDup;
    assert a == a[..k] + a[k..];
  }

  lemma {:induction false} RotationNoDup(a: seq<Id>, k: nat)
    requires k <= |a| && NoDup(a)
    ensures NoDup(a[k..] + a[..k])
  {
    var b, m := a[k..] + a[..k], |a| - k;
    forall i, j | 0 <= i < j < |b|
      ensures b[i] != b[j]
    {
      assert b[i] == a[if i < m then i + k else i - m];
      assert b[j] == a[if j < m then j + k else j - m];
    }
  }

  // ----- Main results -----

  lemma {:induction false} StepKeeps(p: Pool, op: Op)
    requires Inv(p) && Allowed(p, op)
    ensures Steps(p, Step(p, op), op)
  {
    match op
    case AddKeys(keys) => AddKeepsIff(p, keys);
    case Success(id) => SuccessSteps(p, id);
    case Failure(id, t) => FailureSteps(p, id, t);
    case SetEnabled(id, on) => EnableSteps(p, id, on);
    case Reload(id) => ReloadSteps(p, id);
    case Restore(ids) => RestoreSteps(p, ids);
    case Remove(ids) => RemoveSteps(p, ids);
    case Sync(ids) => SyncIsIdle(p, ids);
    case Select(s) => SelectOnlyRotates(p, s);
  }

  /**
   * Over every run cache and list mirror the database exactly, and each key's status and failure count
   * are those of its own life: no operation on other keys, and no selection or sync, can change them.
   */
  lemma {:induction false} RunsMirrorLives(p: Pool, ops: seq<Op>)
    requires Inv(p) && AllowedRun(p, ops)
    ensures Inv(Run(p, ops))
    ensures forall id :: LifeOf(Run(p, ops), id) == Lived(LifeOf(p, id), id, ops)
  {
    if ops != [] {
      var front, op := ops[..|ops| - 1], ops[|ops| - 1];
      RunsMirrorLives(p, front);
      StepKeeps(Run(p, front), op);
      hide Step, Inv, Allowed, Live1;
    }
  }

  // ----- Consequences -----

  /** `ids` are exactly the undeleted rows, each once, all with a credential. */
  ghost predicate LiveRows(p: Pool, ids: seq<Id>) {
    && NoDup(ids)
    && (forall id :: id in ids <==> Live(p, id))
    && (forall id :: id in ids ==> p.db[id].cred != "")
  }

  lemma {:induction false} LoadedRows(p: Pool, ids: seq<Id>)
    requires forall id :: id in ids ==> id in p.db
    ensures forall id :: id in LoadedHash(p, ids) <==> id in ids || id in p.hash
    ensures forall id :: id in ids ==> LoadedHash(p, ids)[id] == EntryOf(p.db[id])
  {
    if ids != [] {
      var front, id := ids[..|ids| - 1], ids[|ids| - 1];
      assert ids == front + [id];
      LoadedRows(p, front);
    }
  }

  lemma {:induction false} ActiveRows(p: Pool, ids: seq<Id>)
    requires (forall id :: id in ids ==> id in p.db) && NoDup(ids)
    ensures forall id :: id in ActiveAmong(p, ids) <==> id in ids && p.db[id].status == Active
    ensures NoDup(ActiveAmong(p, ids))
  {
    if ids != [] {
      var front, id := ids[..|ids| - 1], ids[|ids| - 1];
      LastIsNew(ids);
      ActiveRows(p, front);
      NoDupPush(ActiveAmong(p, front), id);
      hide NoDup;
    }
  }

  lemma {:induction false} NoDupPush(ids: seq<Id>, id: Id)
    requires NoDup(ids)
    ensures id !in ids ==> NoDup(ids + [id])
    ensures NoDup(ids + [])
  {
  }

  /**
   * A full load makes the pool consistent, from an empty cache in particular, except that a list of leftovers
   * survives when no row is active, and that hashes of keys no longer live survive always.
   */
  lemma {:induction false} LoadMirrorsIff(p: Pool, ids: seq<Id>)
    requires LiveRows(p, ids)
    ensures Inv(Loaded(p, ids)) <==>
              (p.list == [] || exists id :: ActiveRow(p, id)) && forall id :: id in p.hash ==> Live(p, id)
  {
    LoadedRows(p, ids);
    var q := Loaded(p, ids);
    hide LoadedHash;
    LoadedMirrors(p, ids, q);
    LoadedLists(p, ids);
    hide *;
    InvIs(q);
  }

  lemma {:induction false} InvIs(p: Pool)
    ensures Inv(p) <==> Mirrored(p) && Listed(p)
  {
  }

  lemma {:induction false} LoadedMirrors(p: Pool, ids: seq<Id>, q: Pool)
    requires LiveRows(p, ids) && q.db == p.db
    requires forall id :: id in q.hash <==> id in ids || id in p.hash
    requires forall id :: id in ids ==> q.hash[id] == EntryOf(p.db[id])
    ensures Mirrored(q) <==> forall id :: id in p.hash ==> Live(p, id)
  {
    if Mirrored(q) {
      assert forall id :: id in p.hash ==> id in q.hash;
    }
  }

  lemma {:induction false} LoadedLists(p: Pool, ids: seq<Id>)
    requires LiveRows(p, ids)
    ensures Listed(Loaded(p, ids)) <==> p.list == [] || exists id :: ActiveRow(p, id)
  {
    ActiveRows(p, ids);
    var q, active := Loaded(p, ids), ActiveAmong(p, ids);
    hide LoadedHash, ActiveAmong, LiveRows;
    if exists id :: ActiveRow(p, id) {
      var id :| ActiveRow(p, id);
      assert id in active;
    } else {
      assert active == [] by {
        assert active != [] ==> active[0] in active && ActiveRow(p, active[0]);
      }
      assert p.list != [] ==> p.list[0] in q.list && !ActiveRow(q, p.list[0]);
    }
  }

  /** The operation may take key `id` out of the disabled state. */
  predicate Frees(op: Op, id: Id) {
    op == SetEnabled(id, true) || (op.Remove? && id in op.ids)
  }

  /** A disabled key is never served or re-activated until someone enables or removes it. */
  lemma {:induction false} DisabledStays(p: Pool, ops: seq<Op>, id: Id)
    requires Inv(p) && AllowedRun(p, ops)
    requires Live(p, id) && p.db[id].status == Disabled
    requires forall op :: op in ops ==> !Frees(op, id)
    ensures Live(Run(p, ops), id) && Run(p, ops).db[id].status == Disabled && id !in Run(p, ops).list
  {
    RunsMirrorLives(p, ops);
    if ops == [] {
      assert !ActiveRow(p, id);
    } else {
      var front, op := ops[..|ops| - 1], ops[|ops| - 1];
      DisabledStays(p, front, id);
      var q := Run(p, front);
      RunsMirrorLives(p, front);
      StepKeeps(q, op);
      assert op in ops;
      hide Run, Step, Mirrored;
      if op.AddKeys? {
        BornFresh(q, op.keys, id);
      }
      assert LifeOf(Step(q, op), id) == Live1(LifeOf(q, id), id, op);
      assert !ActiveRow(Run(p, ops), id);
    }
  }

  lemma {:induction false} BornFresh(p: Pool, keys: seq<NewKey>, id: Id)
    requires FreshKeys(p, keys) && id in p.db
    ensures BornIn(keys, id) == Absent
  {
    if keys != [] {
      BornFresh(p, keys[..|keys| - 1], id);
    }
  }

  /** The operation resets, parks or ends the failure count of key `id`. */
  predicate Resets(op: Op, id: Id) {
    match op
    case AddKeys(keys) => BornIn(keys, id) != Absent
    case Success(x) => x == id
    case SetEnabled(x, _) => x == id
    case Restore(ids) => id in ids
    case Remove(ids) => id in ids
    case _ => false
  }

  function Failures(ops: seq<Op>, id: Id): nat {
    if ops == [] then 0
    else
      var op := ops[|ops| - 1];
      Failures(ops[..|ops| - 1], id) + (if op.Failure? && op.id == id then 1 else 0)
  }

  /** Some failure of key `id` brought its count to the positive threshold that failure came with. */
  predicate Tripped(ops: seq<Op>, id: Id) {
    ops != [] &&
      var op := ops[|ops| - 1];
      Tripped(ops[..|ops| - 1], id) || (op.Failure? && op.id == id && 0 < op.threshold <= Failures(ops, id))
  }

  lemma {:induction false} LivedUntilTripped(id: Id, ops: seq<Op>)
    requires forall op :: op in ops ==> !Resets(op, id)
    ensures var l := Lived(Alive(Active, 0), id, ops);
            if Tripped(ops, id) then l.Alive? && l.status == Invalid else l == Alive(Active, Failures(ops, id))
  {
    if ops != [] {
      var front, op := ops[..|ops| - 1], ops[|ops| - 1];
      assert op in ops;
      LivedUntilTripped(id, front);
    }
  }

  /**
   * In every run that does not reset it, a key that starts active and without failures is blacklisted, in
   * row and hash, and off the list, exactly when one of its failures reached the threshold in force then.
   */
  lemma {:induction false} BlacklistedExactly(p: Pool, ops: seq<Op>, id: Id)
    requires Inv(p) && AllowedRun(p, ops)
    requires LifeOf(p, id) == Alive(Active, 0) && forall op :: op in ops ==> !Resets(op, id)
    ensures var q := Run(p, ops);
            && Live(q, id) && id in q.hash
            && q.db[id].status == (if Tripped(ops, id) then Invalid else Active)
            && q.hash[id].status == Some(q.db[id].status) && q.hash[id].fails == q.db[id].fails
            && (id in q.list <==> !Tripped(ops, id))
            && (!Tripped(ops, id) ==> q.db[id].fails == Failures(ops, id))
  {
    RunsMirrorLives(p, ops);
    LivedUntilTripped(id, ops);
    var q := Run(p, ops);
    hide Run, Lived, Tripped, Failures;
    assert LifeOf(q, id) == Lived(LifeOf(p, id), id, ops);
    assert id in q.list <==> ActiveRow(q, id);
  }

  // ----- When cache and database disagree -----

  /** A late success re-activates a disabled row exactly when the cache does not know it is disabled or active. */
  lemma {:induction false} SuccessReactivatesIff(p: Pool, id: Id)
    requires Live(p, id) && p.db[id].status == Disabled
    ensures Succeeded(p, id).db[id].status == Active
       <==> EntryAt(p, id).status != Some(Disabled) && EntryAt(p, id).status != Some(Active)
  {
  }

  /** Enabling a key makes it servable exactly when its credential was cached; else selection will evict it. */
  lemma {:induction false} EnableServesIff(p: Pool, id: Id)
    requires Live(p, id)
    ensures id in Enabled(p, id, true).list
    ensures Healthy(Enabled(p, id, true), id) <==> EntryAt(p, id).cred != ""
  {
  }

  // ----- Inputs on which they come to disagree -----

  /** A single listed key that cannot be served is evicted, and nothing is selected. */
  lemma {:induction false} OnlyEntryEvicted(p: Pool, s: Scene, id: Id)
    requires p.list == [id] && !Healthy(p, id)
    ensures Selected(p, s) == (Evicted(p, id), NoActiveKeys)
    ensures Evicted(p, id).list == []
  {
    SearchTurn(p, s, 16, None);
    assert Rotate([id]) == [id] && p.(list := [id]) == p;
    WithoutMembers([id], id);
    assert Without([id], id) == [];
    SearchTurn(Evicted(p, id), s, 15, None);
  }

  /**
   * A listed key whose row and hash are disabled: one selection evicts it and forgets its hash, and the
   * success of a request that was under way re-activates it.
   */
  lemma {:induction false} EvictedThenReactivated(id: Id, cred: string, fails: int, s: Scene)
    requires cred != ""
    ensures var p := Pool(map[id := Row(cred, Disabled, fails, false)], map[id := Entry(cred, Some(Disabled), fails)], [id]);
            var q := Succeeded(Selected(p, s).0, id);
            id in q.db && q.db[id].status == Active && q.list == [id]
  {
    var p := Pool(map[id := Row(cred, Disabled, fails, false)], map[id := Entry(cred, Some(Disabled), fails)], [id]);
    OnlyEntryEvicted(p, s, id);
    assert Selected(p, s).0.hash == map[];
    assert Without([], id) == [];
    hide Selected;
  }

  /** A key without a cached hash is enabled: it is listed, evicted by the next selection, and never served. */
  lemma {:induction false} EnabledThenEvicted(id: Id, cred: string, fails: int, s: Scene)
    ensures var p := Pool(map[id := Row(cred, Disabled, fails, false)], map[], []);
            var q := Enabled(p, id, true);
            q.db[id].status == Active && q.list == [id] && Selected(q, s).1 == NoActiveKeys && Selected(q, s).0.list == []
  {
    var p := Pool(map[id := Row(cred, Disabled, fails, false)], map[], []);
    assert Without([], id) == [];
    OnlyEntryEvicted(Enabled(p, id, true), s, id);
    hide Selected;
  }

  /**
   * A backup import onto a running gateway disabled the only active key in its row alone: the load that
   * follows finds no active row, and the key is still listed.
   */
  lemma {:induction false} LeftoverStaysListed(id: Id, cred: string, fails: int)
    requires cred != ""
    ensures var p := Pool(map[id := Row(cred, Disabled, fails, false)], map[id := Entry(cred, Some(Active), fails)], [id]);
            Loaded(p, [id]).list == [id] && !Inv(Loaded(p, [id]))
  {
    var p := Pool(map[id := Row(cred, Disabled, fails, false)], map[id := Entry(cred, Some(Active), fails)], [id]);
    LoadMirrorsIff(p, [id]);
    assert [id][..0] == [];
    assert ActiveAmong(p, [id]) == [];
  }

  /** A row was soft-deleted without the cache: the load lists the remaining key, and the hash stays. */
  lemma {:induction false} StaleHashStays(id: Id, gone: Id, cred: string)
    requires cred != "" && id != gone
    ensures var p := Pool(map[id := Row(cred, Active, 0, false), gone := Row(cred, Active, 0, true)],
                          map[gone := Entry(cred, Some(Active), 0)], []);
            && LiveRows(p, [id])
            && Loaded(p, [id]).list == [id] && gone in Loaded(p, [id]).hash && !Inv(Loaded(p, [id]))
  {
    var p := Pool(map[id := Row(cred, Active, 0, false), gone := Row(cred, Active, 0, true)],
                  map[gone := Entry(cred, Some(Active), 0)], []);
    assert gone in p.hash && !Live(p, gone);
    LoadedRows(p, [id]);
    LoadMirrorsIff(p, [id]);
    assert [id][..0] == [];
    assert ActiveAmong(p, [id]) == [id];
  }
}
