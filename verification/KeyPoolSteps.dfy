/**
 * One operation on a pool whose cache and list mirror its database. Each operation keeps the mirror, and
 * changes the status and the failure count of no key but those it names: seen from any single key, a
 * step of the pool is a step in the life of that key. The batch operations are taken one key at a time,
 * a row, its hash and its place in the list always changing together.
 */
module KeyPoolSteps {
  import opened RateLedger
  import opened KeyPool
  import opened KeySelection

  // ----- The mirror invariant -----

  predicate ActiveRow(p: Pool, id: Id) {
    Live(p, id) && p.db[id].status == Active
  }

  /** The cache holds exactly the live rows, each with its own credential, status and failure count. */
  ghost predicate Mirrored(p: Pool) {
    && (forall id :: id in p.hash <==> Live(p, id))
    && (forall id :: id in p.hash ==> p.hash[id] == EntryOf(p.db[id]) && p.hash[id].cred != "")
  }

  /** The list holds exactly the active live keys, each once. */
  ghost predicate Listed(p: Pool) {
    && NoDup(p.list)
    && forall id :: id in p.list <==> ActiveRow(p, id)
  }

  ghost predicate Inv(p: Pool) {
    Mirrored(p) && Listed(p)
  }

  // ----- Runs -----

  datatype Op =
    | AddKeys(keys: seq<NewKey>)
    | Success(id: Id)
    | Failure(id: Id, threshold: int)
    | SetEnabled(id: Id, on: bool)
    | Reload(id: Id)
    | Restore(ids: seq<Id>)
    | Remove(ids: seq<Id>)
    | Sync(ids: seq<Id>)
    | Select(scene: Scene)

  /** New rows get fresh ids and carry a credential. */
  ghost predicate FreshKeys(p: Pool, keys: seq<NewKey>) {
    && (forall i :: 0 <= i < |keys| ==> keys[i].id !in p.db && keys[i].row.cred != "" && !keys[i].row.deleted)
    && (forall i, j :: 0 <= i < j < |keys| ==> keys[i].id != keys[j].id)
  }

  /** What the callers and the database provide: fresh active keys, and query results that match. */
  ghost predicate Allowed(p: Pool, op: Op) {
    match op
    case AddKeys(keys) => FreshKeys(p, keys) && forall i :: 0 <= i < |keys| ==> keys[i].row.status == Active
    case Restore(ids) => NoDup(ids) && forall id :: id in ids ==> Live(p, id) && p.db[id].status == Invalid
    case Remove(ids) => NoDup(ids) && forall id :: id in ids ==> Live(p, id)
    case Sync(ids) => forall id :: id in ids ==> id in p.db
    case _ => true
  }

  ghost function Step(p: Pool, op: Op): Pool {
    match op
    case AddKeys(keys) => Added(p, keys)
    case Success(id) => Succeeded(p, id)
    case Failure(id, t) => Failed(p, id, t)
    case SetEnabled(id, on) => Enabled(p, id, on)
    case Reload(id) => Reloaded(p, id)
    case Restore(ids) => if Allowed(p, op) then Restored(p, ids) else p
    case Remove(ids) => if Allowed(p, op) then Removed(p, ids) else p
    case Sync(ids) => if Allowed(p, op) then Synced(p, ids) else p
    case Select(s) => Selected(p, s).0
  }

  ghost function Run(p: Pool, ops: seq<Op>): Pool {
    if ops == [] then p else Step(Run(p, ops[..|ops| - 1]), ops[|ops| - 1])
  }

  ghost predicate AllowedRun(p: Pool, ops: seq<Op>) {
    ops != [] ==>
      AllowedRun(p, ops[..|ops| - 1]) && Allowed(Run(p, ops[..|ops| - 1]), ops[|ops| - 1])
  }

  // ----- One key's life -----

  datatype Life = Absent | Alive(status: Status, fails: int)

  function LifeOf(p: Pool, id: Id): Life {
    if Live(p, id) then Alive(p.db[id].status, p.db[id].fails) else Absent
  }

  function BornIn(keys: seq<NewKey>, id: Id): Life {
    if keys == [] then Absent
    else
      var k := keys[|keys| - 1];
      if k.id == id then Alive(k.row.status, k.row.fails) else BornIn(keys[..|keys| - 1], id)
  }

  /** What one operation does to one key. */
  function Live1(l: Life, id: Id, op: Op): Life {
    match op
    case AddKeys(keys) => if BornIn(keys, id) == Absent then l else BornIn(keys, id)
    case Success(x) => if x == id && l.Alive? && l.status != Disabled then Alive(Active, 0) else l
    case Failure(x, t) =>
      if x == id && l.Alive? && l.status == Active then
        Alive(if t > 0 && l.fails + 1 >= t then Invalid else Active, l.fails + 1)
      else l
    case SetEnabled(x, on) =>
      if x == id && l.Alive? then (if on then Alive(Active, 0) else Alive(Disabled, l.fails)) else l
    case Reload(_) => l
    case Restore(ids) => if id in ids && l.Alive? && l.status == Invalid then Alive(Active, 0) else l
    case Remove(ids) => if id in ids then Absent else l
    case Sync(_) => l
    case Select(_) => l
  }

  function Lived(l: Life, id: Id, ops: seq<Op>): Life {
    if ops == [] then l else Live1(Lived(l, id, ops[..|ops| - 1]), id, ops[|ops| - 1])
  }

  // ----- Each step keeps the mirror, and is the key's own step for every key -----

  ghost predicate Steps(p: Pool, q: Pool, op: Op) {
    Inv(q) && forall id :: LifeOf(q, id) == Live1(LifeOf(p, id), id, op)
  }

  function Rewritten(p: Pool, id: Id, row: Row, list: seq<Id>): Pool {
    Pool(p.db[id := row], p.hash[id := EntryOf(row)], list)
  }

  ghost predicate Rewrites(p: Pool, q: Pool, id: Id, row: Row) {
    Inv(q) && forall x :: LifeOf(q, x) == if x == id then Alive(row.status, row.fails) else LifeOf(p, x)
  }

  /** A row and its cached hash change together. */
  lemma {:induction false} Rewrite(p: Pool, id: Id, row: Row, list: seq<Id>)
    requires Inv(p) && row.cred != "" && !row.deleted
    requires NoDup(list) && forall x :: x in list <==> if x == id then row.status == Active else x in p.list
    ensures Rewrites(p, Rewritten(p, id, row, list), id, row)
  {
    var q := Rewritten(p, id, row, list);
    forall x
      ensures x in q.hash <==> Live(q, x)
    {
      assert x in p.hash <==> Live(p, x);
    }
    forall x
      ensures x in q.list <==> ActiveRow(q, x)
    {
      assert x != id ==> (ActiveRow(q, x) <==> ActiveRow(p, x));
    }
  }

  lemma {:induction false} EnlistMembers(list: seq<Id>, id: Id)
    requires NoDup(list)
    ensures NoDup([id] + Without(list, id))
    ensures forall x :: x in [id] + Without(list, id) <==> x == id || x in list
  {
    WithoutMembers(list, id);
    var w := Without(list, id);
    assert id !in w && NoDup(w);
    forall i, j | 0 <= i < j < |w| + 1
      ensures ([id] + w)[i] != ([id] + w)[j]
    {
      assert ([id] + w)[j] == w[j - 1];
    }
  }

  lemma {:induction false} RewriteOn(p: Pool, id: Id, row: Row)
    requires Inv(p) && row.cred != "" && !row.deleted && row.status == Active
    ensures Rewrites(p, Rewritten(p, id, row, [id] + Without(p.list, id)), id, row)
  {
    EnlistMembers(p.list, id);
    Rewrite(p, id, row, [id] + Without(p.list, id));
  }

  lemma {:induction false} RewriteOff(p: Pool, id: Id, row: Row)
    requires Inv(p) && row.cred != "" && !row.deleted && row.status != Active
    ensures Rewrites(p, Rewritten(p, id, row, Without(p.list, id)), id, row)
  {
    WithoutMembers(p.list, id);
    Rewrite(p, id, row, Without(p.list, id));
  }

  lemma {:induction false} RewriteKeep(p: Pool, id: Id, row: Row)
    requires Inv(p) && Live(p, id) && row.cred != "" && !row.deleted && row.status == p.db[id].status
    ensures Rewrites(p, Rewritten(p, id, row, p.list), id, row)
  {
    assert id in p.list <==> ActiveRow(p, id);
    Rewrite(p, id, row, p.list);
  }

  lemma {:induction false} CachedRow(p: Pool, id: Id)
    requires Inv(p)
    ensures id in p.hash <==> Live(p, id)
    ensures Live(p, id) ==> EntryAt(p, id) == EntryOf(p.db[id]) && p.db[id].cred != ""
  {
    if Live(p, id) {
      assert id in p.hash;
    }
  }

  lemma {:induction false} SuccessSteps(p: Pool, id: Id)
    requires Inv(p)
    ensures Steps(p, Succeeded(p, id), Success(id))
  {
    CachedRow(p, id);
    hide Inv, Without;
    if Live(p, id) {
      var row := p.db[id].(fails := 0, status := Active);
      if p.db[id].status == Active {
        RewriteKeep(p, id, row);
      } else {
        RewriteOn(p, id, row);
      }
    }
  }

  lemma {:induction false} FailureRewrites(p: Pool, id: Id, threshold: int)
    requires Live(p, id) && p.db[id].status == Active && EntryAt(p, id) == EntryOf(p.db[id])
    ensures var n := p.db[id].fails + 1;
            Failed(p, id, threshold) ==
            if threshold > 0 && n >= threshold then Rewritten(p, id, p.db[id].(fails := n, status := Invalid), Without(p.list, id))
            else Rewritten(p, id, p.db[id].(fails := n), p.list)
  {
    hide Without;
  }

  lemma {:induction false} FailureSteps(p: Pool, id: Id, threshold: int)
    requires Inv(p)
    ensures Steps(p, Failed(p, id, threshold), Failure(id, threshold))
  {
    CachedRow(p, id);
    if Live(p, id) && p.db[id].status == Active {
      FailureRewrites(p, id, threshold);
      hide Inv, Without, Failed, Rewritten;
      var n := p.db[id].fails + 1;
      if threshold > 0 && n >= threshold {
        RewriteOff(p, id, p.db[id].(fails := n, status := Invalid));
      } else {
        RewriteKeep(p, id, p.db[id].(fails := n));
      }
    }
  }

  lemma {:induction false} EnableSteps(p: Pool, id: Id, on: bool)
    requires Inv(p)
    ensures Steps(p, Enabled(p, id, on), SetEnabled(id, on))
  {
    CachedRow(p, id);
    hide Inv, Without;
    if Live(p, id) {
      if on {
        RewriteOn(p, id, p.db[id].(fails := 0, status := Active));
      } else {
        RewriteOff(p, id, p.db[id].(status := Disabled));
      }
    }
  }

  lemma {:induction false} ReloadSteps(p: Pool, id: Id)
    requires Inv(p)
    ensures Steps(p, Reloaded(p, id), Reload(id))
  {
    CachedRow(p, id);
    hide Inv, Without;
    if Live(p, id) {
      assert p.db[id := p.db[id]] == p.db;
      if p.db[id].status == Active {
        RewriteOn(p, id, p.db[id]);
      } else {
        RewriteOff(p, id, p.db[id]);
      }
    }
  }

  /** Distinct ids: the last is none of those before it. */
  lemma {:induction false} LastIsNew(ids: seq<Id>)
    requires ids != [] && NoDup(ids)
    ensures var front, id := ids[..|ids| - 1], ids[|ids| - 1];
            ids == front + [id] && NoDup(front) && id !in front && (forall x :: x in ids <==> x in front || x == id)
  {
    var front := ids[..|ids| - 1];
    assert forall i :: 0 <= i < |front| ==> front[i] == ids[i];
    assert ids == front + [ids[|ids| - 1]];
  }

  lemma {:induction false} RestoreSteps(p: Pool, ids: seq<Id>)
    requires Inv(p) && Allowed(p, Restore(ids))
    ensures Steps(p, Restored(p, ids), Restore(ids))
  {
    if ids == [] {
      RestoredNothing(p);
    } else {
      LastIsNew(ids);
      var front, id := ids[..|ids| - 1], ids[|ids| - 1];
      assert Allowed(p, Restore(front));
      hide *;
      RestoreSteps(p, front);
      RestoredPush(p, ids);
      RestoreOneMore(p, Restored(p, front), front, id);
    }
  }

  lemma {:induction false} RestoredNothing(p: Pool)
    requires Inv(p)
    ensures Steps(p, Restored(p, []), Restore([]))
  {
  }

  lemma {:induction false} RestoredPush(p: Pool, ids: seq<Id>)
    requires ids != [] && Allowed(p, Restore(ids))
    ensures var front, id := ids[..|ids| - 1], ids[|ids| - 1];
            && (forall x :: x in front ==> x in p.db) && (forall x :: x in ids ==> x in p.db)
            && id in Restored(p, front).db && Live(p, id) && p.db[id].status == Invalid
            && Restored(p, ids) == RestoredOne(Restored(p, front), id)
  {
    LastIsNew(ids);
  }

  lemma {:induction false} RestoreOneMore(p: Pool, q: Pool, front: seq<Id>, id: Id)
    requires Steps(p, q, Restore(front)) && id in q.db
    requires Live(p, id) && p.db[id].status == Invalid && id !in front
    ensures Steps(p, RestoredOne(q, id), Restore(front + [id]))
  {
    assert LifeOf(q, id) == LifeOf(p, id);
    RestoreOneSteps(q, id);
    hide Inv, RestoredOne;
    forall x
      ensures LifeOf(RestoredOne(q, id), x) == Live1(LifeOf(p, x), x, Restore(front + [id]))
    {
      assert LifeOf(q, x) == Live1(LifeOf(p, x), x, Restore(front));
    }
  }

  lemma {:induction false} RestoreOneSteps(p: Pool, id: Id)
    requires Inv(p) && Live(p, id)
    ensures Inv(RestoredOne(p, id))
    ensures forall x :: LifeOf(RestoredOne(p, id), x) == if x == id then Alive(Active, 0) else LifeOf(p, x)
  {
    CachedRow(p, id);
    hide Inv, Without;
    RewriteOn(p, id, p.db[id].(status := Active, fails := 0));
  }

  lemma {:induction false} RemoveSteps(p: Pool, ids: seq<Id>)
    requires Inv(p) && Allowed(p, Remove(ids))
    ensures Steps(p, Removed(p, ids), Remove(ids))
  {
    if ids == [] {
      RemovedNothing(p);
    } else {
      LastIsNew(ids);
      var front, id := ids[..|ids| - 1], ids[|ids| - 1];
      assert Allowed(p, Remove(front));
      hide *;
      RemoveSteps(p, front);
      RemovedPush(p, ids);
      RemoveOneMore(p, Removed(p, front), front, id);
    }
  }

  lemma {:induction false} RemovedNothing(p: Pool)
    requires Inv(p)
    ensures Steps(p, Removed(p, []), Remove([]))
  {
  }

  lemma {:induction false} RemovedPush(p: Pool, ids: seq<Id>)
    requires ids != [] && Allowed(p, Remove(ids))
    ensures var front, id := ids[..|ids| - 1], ids[|ids| - 1];
            && (forall x :: x in front ==> x in p.db) && (forall x :: x in ids ==> x in p.db)
            && id in Removed(p, front).db
            && Removed(p, ids) == RemovedOne(Removed(p, front), id)
  {
    LastIsNew(ids);
  }

  lemma {:induction false} RemoveOneMore(p: Pool, q: Pool, front: seq<Id>, id: Id)
    requires Steps(p, q, Remove(front)) && id in q.db
    ensures Steps(p, RemovedOne(q, id), Remove(front + [id]))
  {
    RemoveOneSteps(q, id);
    hide Inv, RemovedOne;
    forall x
      ensures LifeOf(RemovedOne(q, id), x) == Live1(LifeOf(p, x), x, Remove(front + [id]))
    {
      assert LifeOf(q, x) == Live1(LifeOf(p, x), x, Remove(front));
    }
  }

  lemma {:induction false} RemoveOneSteps(p: Pool, id: Id)
    requires Inv(p) && id in p.db
    ensures Inv(RemovedOne(p, id))
    ensures forall x :: LifeOf(RemovedOne(p, id), x) == if x == id then Absent else LifeOf(p, x)
  {
    var q := RemovedOne(p, id);
    WithoutMembers(p.list, id);
    forall x
      ensures x in q.hash <==> Live(q, x)
    {
      assert x in p.hash <==> Live(p, x);
    }
    forall x
      ensures x in q.list <==> ActiveRow(q, x)
    {
      assert x != id ==> (ActiveRow(q, x) <==> ActiveRow(p, x));
    }
  }

  // ----- Adding -----

  /** The rows and hashes of `keys` have been stored into `p`, the list not yet touched. */
  ghost predicate StoredAs(p: Pool, q: Pool, keys: seq<NewKey>) {
    && Mirrored(q) && q.list == p.list
    && (forall x :: x in q.db <==> x in p.db || x in IdsOf(keys))
    && (forall x :: LifeOf(q, x) == if x in IdsOf(keys) then BornIn(keys, x) else LifeOf(p, x))
  }

  lemma {:induction false} StoredSteps(p: Pool, keys: seq<NewKey>)
    requires Mirrored(p) && FreshKeys(p, keys)
    ensures StoredAs(p, Stored(p, keys), keys)
    ensures forall x :: x in IdsOf(keys) <==> BornIn(keys, x) != Absent
  {
    if keys == [] {
      assert IdsOf(keys) == [];
    } else {
      var front, k := keys[..|keys| - 1], keys[|keys| - 1];
      FreshFront(p, keys);
      assert k.row.cred != "" && !k.row.deleted;
      hide *;
      StoredSteps(p, front);
      StoredPush(p, keys);
      IdsPush(keys);
      StoreOneMore(p, Stored(p, front), front, k);
    }
  }

  lemma {:induction false} FreshFront(p: Pool, keys: seq<NewKey>)
    requires keys != [] && FreshKeys(p, keys)
    ensures FreshKeys(p, keys[..|keys| - 1])
    ensures keys[|keys| - 1].id !in IdsOf(keys[..|keys| - 1]) && keys[|keys| - 1].id !in p.db
    ensures keys == keys[..|keys| - 1] + [keys[|keys| - 1]]
  {
  }

  lemma {:induction false} IdsPush(keys: seq<NewKey>)
    requires keys != []
    ensures var front, k := keys[..|keys| - 1], keys[|keys| - 1];
            && (forall x :: x in IdsOf(keys) <==> x in IdsOf(front) || x == k.id)
            && (forall x :: BornIn(keys, x) == if x == k.id then Alive(k.row.status, k.row.fails) else BornIn(front, x))
  {
    assert IdsOf(keys) == IdsOf(keys[..|keys| - 1]) + [keys[|keys| - 1].id];
  }

  lemma {:induction false} StoredPush(p: Pool, keys: seq<NewKey>)
    requires keys != []
    ensures var q, k := Stored(p, keys[..|keys| - 1]), keys[|keys| - 1];
            Stored(p, keys) == PutEntry(PutRow(q, k.id, k.row), k.id, EntryOf(k.row))
  {
  }

  lemma {:induction false} StoreOneMore(p: Pool, q: Pool, front: seq<NewKey>, k: NewKey)
    requires StoredAs(p, q, front) && k.id !in IdsOf(front) && k.id !in p.db && k.row.cred != "" && !k.row.deleted
    ensures StoredAs(p, PutEntry(PutRow(q, k.id, k.row), k.id, EntryOf(k.row)), front + [k])
  {
    var r, keys := PutEntry(PutRow(q, k.id, k.row), k.id, EntryOf(k.row)), front + [k];
    assert keys[..|keys| - 1] == front;
    IdsPush(keys);
    StoreMirrors(q, k);
    hide IdsOf, BornIn, Mirrored;
    forall x
      ensures LifeOf(r, x) == if x in IdsOf(keys) then BornIn(keys, x) else LifeOf(p, x)
    {
      assert x != k.id ==> LifeOf(r, x) == LifeOf(q, x);
    }
  }

  lemma {:induction false} StoreMirrors(q: Pool, k: NewKey)
    requires Mirrored(q) && k.row.cred != "" && !k.row.deleted
    ensures Mirrored(PutEntry(PutRow(q, k.id, k.row), k.id, EntryOf(k.row)))
  {
    var r := PutEntry(PutRow(q, k.id, k.row), k.id, EntryOf(k.row));
    forall x
      ensures x in r.hash <==> Live(r, x)
    {
      assert x in q.hash <==> Live(q, x);
    }
  }

  /** The new list has no duplicates, and its new ids are not live yet. */
  lemma {:induction false} AddedList(p: Pool, keys: seq<NewKey>)
    requires Listed(p) && FreshKeys(p, keys)
    ensures NoDup(IdsOf(keys) + p.list)
  {
    var ids := IdsOf(keys);
    forall i, j | 0 <= i < j < |ids + p.list|
      ensures (ids + p.list)[i] != (ids + p.list)[j]
    {
      if i < |ids| <= j {
        assert (ids + p.list)[j] in p.list;
        assert keys[i].id !in p.db;
      }
    }
  }

  lemma {:induction false} AllActiveListed(p: Pool, r: Pool, keys: seq<NewKey>)
    requires Listed(p) && NoDup(r.list) && r.list == IdsOf(keys) + p.list
    requires forall x :: LifeOf(r, x) == if x in IdsOf(keys) then BornIn(keys, x) else LifeOf(p, x)
    requires forall i :: 0 <= i < |keys| ==> BornIn(keys, keys[i].id) == Alive(Active, keys[i].row.fails)
    ensures Listed(r)
  {
    hide NoDup, BornIn;
    forall x
      ensures x in r.list <==> ActiveRow(r, x)
    {
      assert x in p.list <==> ActiveRow(p, x);
      if x in IdsOf(keys) {
        var i :| 0 <= i < |keys| && IdsOf(keys)[i] == x;
      }
    }
  }

  lemma {:induction false} BornAsGiven(keys: seq<NewKey>)
    requires forall i, j :: 0 <= i < j < |keys| ==> keys[i].id != keys[j].id
    ensures forall i :: 0 <= i < |keys| ==> BornIn(keys, keys[i].id) == Alive(keys[i].row.status, keys[i].row.fails)
  {
    if keys != [] {
      BornAsGiven(keys[..|keys| - 1]);
    }
  }
}
