/**
 * Bringing the cache back in line after the database changed underneath it: what a sync does to each
 * key in any state, and when the list is right again afterwards.
 */
module KeySync {
  import opened Wrappers
  import opened RateLedger
  import opened KeyPool
  import opened KeySelection
  import opened KeyPoolSteps

  function Lookup(p: Pool, id: Id): Option<Entry> {
    if id in p.hash then Some(p.hash[id]) else None
  }

  /** The hash a sync leaves for a row, given the hash it found. A healthy hash of an active row is kept. */
  function SyncedEntry(r: Row, found: Option<Entry>): Option<Entry> {
    if r.deleted then None
    else if r.status != Active then Some(found.GetOr(NO_ENTRY).(status := Some(r.status)))
    else if found.None? || found.value.cred == "" then Some(EntryOf(r))
    else Some(found.value.(status := Some(Active)))
  }

  /** Key `id` has been synced from `p` to `q`. */
  ghost predicate SyncedKey(p: Pool, q: Pool, id: Id)
    requires id in p.db
  {
    && Lookup(q, id) == SyncedEntry(p.db[id], Lookup(p, id))
    && (id in q.list <==> ActiveRow(p, id) && (Healthy(p, id) ==> id in p.list))
  }

  ghost predicate SameKey(p: Pool, q: Pool, id: Id) {
    Lookup(q, id) == Lookup(p, id) && (id in q.list <==> id in p.list)
  }

  lemma {:induction false} SyncOneEffect(p: Pool, id: Id)
    requires id in p.db
    ensures var q := SyncedOne(p, id);
            SyncedKey(p, q, id) && forall x :: x != id ==> SameKey(p, q, x)
  {
    WithoutMembers(p.list, id);
    hide Without, NoDup;
  }

  lemma {:induction false} SyncOneNoDup(p: Pool, id: Id)
    requires id in p.db && NoDup(p.list) && (id in p.list ==> id in p.hash)
    ensures NoDup(SyncedOne(p, id).list)
  {
    WithoutMembers(p.list, id);
    EnlistMembers(p.list, id);
    if id !in p.list {
      WithoutMembers(p.list, id);
    }
    hide NoDup, Without;
  }

  /** Every synced row is synced once from the state before; every other key is left alone. */
  lemma {:induction false} SyncEffect(p: Pool, ids: seq<Id>)
    requires NoDup(ids) && forall id :: id in ids ==> id in p.db
    ensures forall id :: id in ids ==> SyncedKey(p, Synced(p, ids), id)
    ensures forall id :: id !in ids ==> SameKey(p, Synced(p, ids), id)
    ensures NoDup(p.list) && (forall id :: id in p.list ==> id in p.hash) ==> NoDup(Synced(p, ids).list)
  {
    if ids != [] {
      var front, id := ids[..|ids| - 1], ids[|ids| - 1];
      assert ids == front + [id];
      assert NoDup(front) && id !in front by {
        assert forall i :: 0 <= i < |front| ==> front[i] == ids[i];
      }
      SyncEffect(p, front);
      var q, r := Synced(p, front), Synced(p, ids);
      SyncOneEffect(q, id);
      assert SameKey(p, q, id);
      if NoDup(p.list) && forall x :: x in p.list ==> x in p.hash {
        SyncOneNoDup(q, id);
      }
      SyncedPush(p, ids);
      hide NoDup, SyncedOne, Synced, SyncedEntry;
      assert q.db == p.db;
      forall x | x in ids
        ensures SyncedKey(p, r, x)
      {
        if x == id {
          SameThenSynced(p, q, r, id);
        } else {
          assert SyncedKey(p, q, x) && SameKey(q, r, x);
        }
      }
      forall x | x !in ids
        ensures SameKey(p, r, x)
      {
        assert SameKey(p, q, x) && SameKey(q, r, x);
      }
    }
  }

  lemma {:induction false} SyncedPush(p: Pool, ids: seq<Id>)
    requires ids != [] && forall id :: id in ids ==> id in p.db
    ensures Synced(p, ids) == SyncedOne(Synced(p, ids[..|ids| - 1]), ids[|ids| - 1])
    ensures Synced(p, ids[..|ids| - 1]).db == p.db
  {
  }

  lemma {:induction false} SameThenSynced(p: Pool, q: Pool, r: Pool, id: Id)
    requires id in p.db && q.db == p.db && SameKey(p, q, id) && SyncedKey(q, r, id)
    ensures SyncedKey(p, r, id)
  {
  }

  // ----- Main results -----

  /** `ids` are all rows of the group, each once. */
  ghost predicate AllRows(p: Pool, ids: seq<Id>) {
    NoDup(ids) && forall id :: id in ids <==> id in p.db
  }

  /** The list held exactly the keys whose hash can be served, each once. */
  ghost predicate Serving(p: Pool) {
    NoDup(p.list) && forall id :: id in p.list <==> Healthy(p, id)
  }

  /**
   * After any batch of row changes, a sync makes the list exactly the active live rows again precisely
   * when no listed key has vanished from the database altogether; keys that stay active keep their
   * cached failure count, and every active row with a credential can be served.
   */
  lemma {:induction false} SyncRepairs(p: Pool, ids: seq<Id>)
    requires AllRows(p, ids) && Serving(p)
    ensures var q := Synced(p, ids);
            && NoDup(q.list)
            && (Listed(q) <==> forall id :: id in p.list ==> id in p.db)
            && (forall id :: ActiveRow(p, id) && Healthy(p, id) ==> Lookup(q, id) == Lookup(p, id))
            && (forall id :: ActiveRow(p, id) && p.db[id].cred != "" ==> Healthy(q, id))
  {
    SyncEffect(p, ids);
    var q := Synced(p, ids);
    hide Synced, NoDup;
    forall id | ActiveRow(p, id)
      ensures id in q.list
      ensures Healthy(p, id) ==> Lookup(q, id) == Lookup(p, id)
      ensures p.db[id].cred != "" ==> Healthy(q, id)
    {
      assert SyncedKey(p, q, id);
    }
    if id :| id in p.list && id !in p.db {
      assert SameKey(p, q, id);
      assert id in q.list && !ActiveRow(q, id);
    } else {
      forall id
        ensures id in q.list <==> ActiveRow(q, id)
      {
        if id in p.db {
          assert SyncedKey(p, q, id);
        } else {
          assert SameKey(p, q, id);
        }
      }
    }
  }

  /** What a sync does not repair: a hash that is already servable keeps its credential and count, right or wrong. */
  lemma {:induction false} SyncMirrorsIff(p: Pool, ids: seq<Id>, id: Id)
    requires AllRows(p, ids) && Live(p, id)
    ensures var q, row := Synced(p, ids), p.db[id];
            && (Lookup(q, id) == Some(EntryOf(row)) <==>
                  (row.status == Active && EntryAt(p, id).cred == "")
                  || (EntryAt(p, id).cred == row.cred && EntryAt(p, id).fails == row.fails))
  {
    SyncEffect(p, ids);
    assert SyncedKey(p, Synced(p, ids), id);
  }

  /** A row whose failure count was reset elsewhere: after the sync the hash still has the old count. */
  lemma {:induction false} StaleCountStays(id: Id, cred: string, fails: int)
    requires cred != "" && fails != 0
    ensures var p := Pool(map[id := Row(cred, Active, 0, false)], map[id := Entry(cred, Some(Active), fails)], [id]);
            Lookup(Synced(p, [id]), id) == Some(Entry(cred, Some(Active), fails))
  {
    var p := Pool(map[id := Row(cred, Active, 0, false)], map[id := Entry(cred, Some(Active), fails)], [id]);
    SyncEffect(p, [id]);
    assert SyncedKey(p, Synced(p, [id]), id);
    hide Synced;
  }

  /** A row deleted for good behind the program's back: after the sync its key is still listed. */
  lemma {:induction false} VanishedStaysListed(id: Id, cred: string)
    requires cred != ""
    ensures var p := Pool(map[], map[id := Entry(cred, Some(Active), 0)], [id]);
            Synced(p, []) == p && !Listed(Synced(p, []))
  {
    var p := Pool(map[], map[id := Entry(cred, Some(Active), 0)], [id]);
    assert id in p.list && !ActiveRow(p, id);
  }
}
