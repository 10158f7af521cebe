/**
 * The key pool of one group: its database rows, the cached hash of every key, and the rotating list of
 * active keys. Each operation is one atomic step.
 */
module KeyPool {
  import opened Wrappers
  import opened RateLedger

  datatype Status = Active | Invalid | Disabled

  /** `deleted` marks a soft-deleted row. */
  datatype Row = Row(cred: string, status: Status, fails: int, deleted: bool)

  /** A cached hash; fields never written read as "", `None` and 0. */
  datatype Entry = Entry(cred: string, status: Option<Status>, fails: int)

  datatype Pool = Pool(db: map<Id, Row>, hash: map<Id, Entry>, list: seq<Id>)

  const NO_ENTRY := Entry("", None, 0)

  // ----- Specification -----

  function EntryOf(r: Row): Entry {
    Entry(r.cred, Some(r.status), r.fails)
  }

  predicate Live(p: Pool, id: Id) {
    id in p.db && !p.db[id].deleted
  }

  function EntryAt(p: Pool, id: Id): Entry {
    if id in p.hash then p.hash[id] else NO_ENTRY
  }

  function Without(s: seq<Id>, id: Id): seq<Id> {
    if s == [] then []
    else Without(s[..|s| - 1], id) + (if s[|s| - 1] == id then [] else [s[|s| - 1]])
  }

  function PutRow(p: Pool, id: Id, r: Row): Pool {
    p.(db := p.db[id := r])
  }

  function PutEntry(p: Pool, id: Id, e: Entry): Pool {
    p.(hash := p.hash[id := e])
  }

  function Unlist(p: Pool, id: Id): Pool {
    p.(list := Without(p.list, id))
  }

  function Enlist(p: Pool, id: Id): Pool {
    p.(list := [id] + Without(p.list, id))
  }

  /** A request with key `id` succeeded. */
  function Succeeded(p: Pool, id: Id): Pool {
    var e := EntryAt(p, id);
    if e.status == Some(Disabled) || (e.fails == 0 && e.status == Some(Active)) || !Live(p, id) then p
    else
      var row := p.db[id].(fails := 0, status := if e.status == Some(Active) then p.db[id].status else Active);
      var q := PutEntry(PutRow(p, id, row), id, EntryOf(row));
      if e.status == Some(Active) then q else Enlist(q, id)
  }

  /** A request failed in a way that counts against the key. */
  function Failed(p: Pool, id: Id, threshold: int): Pool {
    var e := EntryAt(p, id);
    if e.status == Some(Invalid) || e.status == Some(Disabled) || !Live(p, id) then p
    else
      var n := e.fails + 1;
      if threshold > 0 && n >= threshold then
        Unlist(PutEntry(PutRow(p, id, p.db[id].(fails := n, status := Invalid)), id, e.(fails := n, status := Some(Invalid))), id)
      else PutEntry(PutRow(p, id, p.db[id].(fails := n)), id, e.(fails := n))
  }

  function Enabled(p: Pool, id: Id, on: bool): Pool {
    if !Live(p, id) then p
    else if on then
      Enlist(PutEntry(PutRow(p, id, p.db[id].(status := Active, fails := 0)), id, EntryAt(p, id).(status := Some(Active), fails := 0)), id)
    else
      Unlist(PutEntry(PutRow(p, id, p.db[id].(status := Disabled)), id, EntryAt(p, id).(status := Some(Disabled))), id)
  }

  /** Cache one row: its hash, and its place in the list when it is active. */
  function Cached(p: Pool, id: Id, r: Row): Pool {
    var q := PutEntry(p, id, EntryOf(r));
    if r.status == Active then Enlist(q, id) else q
  }

  function Reloaded(p: Pool, id: Id): Pool {
    if !Live(p, id) then p
    else Cached(if p.db[id].status == Active then p else Unlist(p, id), id, p.db[id])
  }

  function RestoredOne(p: Pool, id: Id): Pool
    requires id in p.db
  {
    var row := p.db[id].(status := Active, fails := 0);
    Cached(PutRow(p, id, row), id, row)
  }

  /** `ids` are the rows the query for invalid keys returned. */
  function Restored(p: Pool, ids: seq<Id>): Pool
    requires forall id :: id in ids ==> id in p.db
    ensures Restored(p, ids).db.Keys == p.db.Keys
  {
    if ids == [] then p
    else RestoredOne(Restored(p, ids[..|ids| - 1]), ids[|ids| - 1])
  }

  function RemovedOne(p: Pool, id: Id): Pool
    requires id in p.db
  {
    var q := Unlist(PutRow(p, id, p.db[id].(deleted := true)), id);
    q.(hash := q.hash - {id})
  }

  function Removed(p: Pool, ids: seq<Id>): Pool
    requires forall id :: id in ids ==> id in p.db
    ensures Removed(p, ids).db.Keys == p.db.Keys
  {
    if ids == [] then p
    else RemovedOne(Removed(p, ids[..|ids| - 1]), ids[|ids| - 1])
  }

  datatype NewKey = NewKey(id: Id, row: Row)

  function IdsOf(keys: seq<NewKey>): seq<Id> {
    seq(|keys|, i requires 0 <= i < |keys| => keys[i].id)
  }

  /** Insert the rows and cache them; every one is pushed to the list, whatever its status. */
  function Stored(p: Pool, keys: seq<NewKey>): Pool {
    if keys == [] then p
    else
      var q, k := Stored(p, keys[..|keys| - 1]), keys[|keys| - 1];
      PutEntry(PutRow(q, k.id, k.row), k.id, EntryOf(k.row))
  }

  function Added(p: Pool, keys: seq<NewKey>): Pool {
    var q := Stored(p, keys);
    q.(list := IdsOf(keys) + p.list)
  }

  /** The hashes a full load writes for the rows `ids`, and the active ones among them. */
  function LoadedHash(p: Pool, ids: seq<Id>): map<Id, Entry>
    requires forall id :: id in ids ==> id in p.db
  {
    if ids == [] then p.hash
    else LoadedHash(p, ids[..|ids| - 1])[ids[|ids| - 1] := EntryOf(p.db[ids[|ids| - 1]])]
  }

  function ActiveAmong(p: Pool, ids: seq<Id>): seq<Id>
    requires forall id :: id in ids ==> id in p.db
  {
    if ids == [] then []
    else
      var id := ids[|ids| - 1];
      ActiveAmong(p, ids[..|ids| - 1]) + (if p.db[id].status == Active then [id] else [])
  }

  /** `ids` are the undeleted rows. Without an active one the list is left as it was. */
  function Loaded(p: Pool, ids: seq<Id>): Pool
    requires forall id :: id in ids ==> id in p.db
  {
    var active := ActiveAmong(p, ids);
    Pool(p.db, LoadedHash(p, ids), if active == [] then p.list else active)
  }

  function SyncedOne(p: Pool, id: Id): Pool
    requires id in p.db
  {
    var r, e := p.db[id], EntryAt(p, id);
    if r.deleted then
      var q := Unlist(p, id);
      q.(hash := q.hash - {id})
    else if r.status != Active then PutEntry(Unlist(p, id), id, e.(status := Some(r.status)))
    else if id !in p.hash then
      var q := PutEntry(p, id, EntryOf(r));
      q.(list := [id] + q.list)
    else if e.cred == "" then Enlist(PutEntry(p, id, EntryOf(r)), id)
    else if e.status != Some(Active) then Enlist(PutEntry(p, id, e.(status := Some(Active))), id)
    else p
  }

  /** `ids` are all the group's rows, soft-deleted ones included. */
  function Synced(p: Pool, ids: seq<Id>): Pool
    requires forall id :: id in ids ==> id in p.db
    ensures Synced(p, ids).db == p.db
  {
    if ids == [] then p
    else SyncedOne(Synced(p, ids[..|ids| - 1]), ids[|ids| - 1])
  }

  // ----- Specification of selection -----

  /** What selection reads besides the pool; `cooldown` holds the time each mark expires. */
  datatype Scene = Scene(cooldown: map<Id, int>, counters: Counters, limits: Limits, now: nat)

  datatype Pick = Fresh(id: Id, entry: Entry) | Fallback(id: Id, entry: Entry) | NoActiveKeys

  predicate Healthy(p: Pool, id: Id) {
    id in p.hash && p.hash[id].status == Some(Active) && p.hash[id].cred != ""
  }

  predicate Cooled(s: Scene, id: Id) {
    id in s.cooldown && s.now <= s.cooldown[id]
  }

  predicate Usable(p: Pool, s: Scene, id: Id) {
    Healthy(p, id) && !Cooled(s, id) && Admits(s.counters, id, s.limits, s.now)
  }

  function Rotate(list: seq<Id>): seq<Id>
    requires list != []
  {
    [list[|list| - 1]] + list[..|list| - 1]
  }

  /** Drop a stale entry; its hash goes too unless it only lacks the credential. */
  function Evicted(p: Pool, id: Id): Pool {
    var q := Unlist(p, id);
    if EntryAt(p, id).cred != "" then q.(hash := q.hash - {id}) else q
  }

  function MaxSkip(n: nat): nat {
    if n + 8 > 512 then 512 else if n + 8 > 16 then n + 8 else 16
  }

  /** The loop: rotate, then evict, remember the first cooled key, pass over or pick. */
  function Search(p: Pool, s: Scene, attempts: nat, fallback: Option<Id>): (Pool, Pick)
    decreases attempts
  {
    if attempts == 0 then (p, if fallback.Some? then Fallback(fallback.value, EntryAt(p, fallback.value)) else NoActiveKeys)
    else if p.list == [] then (p, NoActiveKeys)
    else
      var id, q := p.list[|p.list| - 1], p.(list := Rotate(p.list));
      if !Healthy(p, id) then Search(Evicted(q, id), s, attempts - 1, fallback)
      else if Cooled(s, id) then Search(q, s, attempts - 1, if fallback.None? then Some(id) else fallback)
      else if !Admits(s.counters, id, s.limits, s.now) then Search(q, s, attempts - 1, fallback)
      else (q, Fresh(id, p.hash[id]))
  }

  /** One turn of the loop, by what it finds at the tail. */
  lemma {:induction false} SearchTurn(p: Pool, s: Scene, attempts: nat, fallback: Option<Id>)
    requires attempts > 0
    ensures p.list == [] ==> Search(p, s, attempts, fallback) == (p, NoActiveKeys)
    ensures p.list != [] ==>
              var id, q := p.list[|p.list| - 1], p.(list := Rotate(p.list));
              var e := EntryAt(p, id);
              && (id !in p.hash || e.status != Some(Active) || e.cred == "" ==>
                    Search(p, s, attempts, fallback) == Search(Evicted(q, id), s, attempts - 1, fallback))
              && (id in p.hash && e.status == Some(Active) && e.cred != "" ==>
                    if Cooled(s, id) then
                      Search(p, s, attempts, fallback) == Search(q, s, attempts - 1, if fallback.None? then Some(id) else fallback)
                    else if !Admits(s.counters, id, s.limits, s.now) then
                      Search(p, s, attempts, fallback) == Search(q, s, attempts - 1, fallback)
                    else Search(p, s, attempts, fallback) == (q, Fresh(id, e)))
  {
    hide Admits, Cooled, Evicted, Rotate;
  }

  lemma {:induction false} SearchOver(p: Pool, s: Scene, fallback: Option<Id>)
    ensures Search(p, s, 0, fallback) == (p, if fallback.Some? then Fallback(fallback.value, EntryAt(p, fallback.value)) else NoActiveKeys)
  {
  }

  function Selected(p: Pool, s: Scene): (Pool, Pick) {
    Search(p, s, MaxSkip(|p.list|), None)
  }

  // ----- The provider -----

  class KeyProvider {
    var db: map<Id, Row>
    var hash: map<Id, Entry>
    var list: seq<Id>
    var cooldown: map<Id, int>
    const ledger: Ledger

    ghost function View(): Pool
      reads this
    {
      Pool(db, hash, list)
    }

    ghost function SceneAt(limits: Limits, now: nat): Scene
      reads this, ledger
    {
      Scene(cooldown, ledger.View(), limits, now)
    }

    constructor (rows: map<Id, Row>, ledger: Ledger)
      ensures View() == Pool(rows, map[], []) && cooldown == map[] && this.ledger == ledger
    {
      db, hash, list, cooldown := rows, map[], [], map[];
      this.ledger := ledger;
    }

    /** Remove every occurrence. */
    method ListRemove(id: Id)
      modifies this`list
      ensures View() == Unlist(old(View()), id)
    {
      var kept: seq<Id> := [];
      for i := 0 to |list|
        invariant list == old(list)
        invariant kept == Without(list[..i], id)
      {
        assert list[..i + 1][..i] == list[..i];
        if list[i] != id {
          kept := kept + [list[i]];
        }
      }
      assert list[..|list|] == list;
      list := kept;
    }

    method ListPush(id: Id)
      modifies this`list
      ensures View() == old(View()).(list := [id] + old(list))
    {
      list := [id] + list;
    }

    method ReadHash(id: Id) returns (e: Entry)
      ensures e == EntryAt(View(), id)
    {
      e := if id in hash then hash[id] else NO_ENTRY;
    }

    method HandleSuccess(id: Id) returns (ok: bool)
      modifies this
      ensures View() == Succeeded(old(View()), id)
      ensures !ok ==> !Live(old(View()), id) && View() == old(View())
    {
      var e := ReadHash(id);
      if e.status == Some(Disabled) {
        return true;
      }
      var isActive := e.status == Some(Active);
      if e.fails == 0 && isActive {
        return true;
      }
      if id !in db || db[id].deleted {
        return false;
      }
      var row := db[id].(fails := 0);
      if !isActive {
        row := row.(status := Active);
      }
      db := db[id := row];
      hash := hash[id := EntryOf(row)];
      if !isActive {
        ListRemove(id);
        ListPush(id);
      }
      ok := true;
    }

    method HandleFailure(id: Id, threshold: int) returns (ok: bool)
      modifies this
      ensures View() == Failed(old(View()), id, threshold)
      ensures !ok ==> !Live(old(View()), id) && View() == old(View())
    {
      var e := ReadHash(id);
      if e.status == Some(Invalid) || e.status == Some(Disabled) {
        return true;
      }
      if id !in db || db[id].deleted {
        return false;
      }
      var count := e.fails + 1;
      var blacklist := threshold > 0 && count >= threshold;
      db := db[id := db[id].(fails := count, status := if blacklist then Invalid else db[id].status)];
      hash := hash[id := e.(fails := e.fails + 1)];
      if blacklist {
        ListRemove(id);
        hash := hash[id := hash[id].(status := Some(Invalid))];
      }
      ok := true;
    }

    method SetKeyEnabled(id: Id, on: bool) returns (ok: bool)
      modifies this
      ensures View() == Enabled(old(View()), id, on)
      ensures ok <==> Live(old(View()), id)
    {
      if id !in db || db[id].deleted {
        return false;
      }
      db := db[id := db[id].(status := if on then Active else Disabled, fails := if on then 0 else db[id].fails)];
      var e := ReadHash(id);
      if on {
        hash := hash[id := e.(status := Some(Active), fails := 0)];
        ListRemove(id);
        ListPush(id);
      } else {
        hash := hash[id := e.(status := Some(Disabled))];
        ListRemove(id);
      }
      ok := true;
    }

    method AddKeyToStore(id: Id, row: Row)
      modifies this`hash, this`list
      ensures View() == Cached(old(View()), id, row)
    {
      hash := hash[id := EntryOf(row)];
      if row.status == Active {
        ListRemove(id);
        ListPush(id);
      }
    }

    method ReloadKey(id: Id) returns (ok: bool)
      modifies this`hash, this`list
      ensures View() == Reloaded(old(View()), id)
      ensures ok <==> Live(old(View()), id)
    {
      if id !in db || db[id].deleted {
        return false;
      }
      if db[id].status != Active {
        ListRemove(id);
      }
      AddKeyToStore(id, db[id]);
      ok := true;
    }

    method RestoreKeys(ids: seq<Id>)
      requires forall id :: id in ids ==> id in db
      modifies this
      ensures View() == Restored(old(View()), ids)
    {
      for i := 0 to |ids|
        invariant View() == Restored(old(View()), ids[..i])
      {
        assert ids[..i + 1][..i] == ids[..i];
        var row := db[ids[i]].(status := Active, fails := 0);
        db := db[ids[i] := row];
        AddKeyToStore(ids[i], row);
      }
      assert ids[..|ids|] == ids;
    }

    method RemoveKeys(ids: seq<Id>)
      requires forall id :: id in ids ==> id in db
      modifies this
      ensures View() == Removed(old(View()), ids)
    {
      for i := 0 to |ids|
        invariant View() == Removed(old(View()), ids[..i])
      {
        assert ids[..i + 1][..i] == ids[..i];
        db := db[ids[i] := db[ids[i]].(deleted := true)];
        ListRemove(ids[i]);
        hash := hash - {ids[i]};
      }
      assert ids[..|ids|] == ids;
    }

    method AddKeys(keys: seq<NewKey>)
      modifies this
      ensures View() == Added(old(View()), keys)
    {
      for i := 0 to |keys|
        invariant View() == Stored(old(View()), keys[..i])
        invariant list == old(list)
      {
        assert keys[..i + 1][..i] == keys[..i];
        db := db[keys[i].id := keys[i].row];
        hash := hash[keys[i].id := EntryOf(keys[i].row)];
      }
      assert keys[..|keys|] == keys;
      list := IdsOf(keys) + list;
    }

    method LoadKeysFromDB(ids: seq<Id>)
      requires forall id :: id in ids ==> id in db
      modifies this`hash, this`list
      ensures View() == Loaded(old(View()), ids)
    {
      var active: seq<Id> := [];
      for i := 0 to |ids|
        invariant list == old(list)
        invariant hash == LoadedHash(old(View()), ids[..i])
        invariant active == ActiveAmong(old(View()), ids[..i])
      {
        assert ids[..i + 1][..i] == ids[..i];
        hash := hash[ids[i] := EntryOf(db[ids[i]])];
        if db[ids[i]].status == Active {
          active := active + [ids[i]];
        }
      }
      assert ids[..|ids|] == ids;
      if active != [] {
        list := active;
      }
    }

    method SyncKey(id: Id)
      requires id in db
      modifies this`hash, this`list
      ensures View() == SyncedOne(old(View()), id)
    {
      var row := db[id];
      if row.deleted {
        ListRemove(id);
        hash := hash - {id};
        return;
      }
      var e := ReadHash(id);
      if row.status == Invalid || row.status == Disabled {
        ListRemove(id);
        hash := hash[id := e.(status := Some(row.status))];
        return;
      }
      if id !in hash {
        hash := hash[id := EntryOf(row)];
        ListPush(id);
        return;
      }
      if e.cred == "" {
        hash := hash[id := EntryOf(row)];
        ListRemove(id);
        ListPush(id);
        return;
      }
      if e.status != Some(Active) {
        hash := hash[id := e.(status := Some(Active))];
        ListRemove(id);
        ListPush(id);
      }
    }

    method SyncGroupKeysFromDB(ids: seq<Id>)
      requires forall id :: id in ids ==> id in db
      modifies this`hash, this`list
      ensures View() == Synced(old(View()), ids)
    {
      for i := 0 to |ids|
        invariant View() == Synced(old(View()), ids[..i])
      {
        assert ids[..i + 1][..i] == ids[..i];
        SyncKey(ids[i]);
      }
      assert ids[..|ids|] == ids;
    }

    method CoolDownKey(id: Id, duration: int, now: nat)
      modifies this`cooldown
      ensures cooldown == if duration <= 0 then old(cooldown) else old(cooldown)[id := now + duration]
    {
      if duration > 0 {
        cooldown := cooldown[id := now + duration];
      }
    }

    method RotateList() returns (id: Option<Id>)
      modifies this`list
      ensures old(list) == [] ==> id == None && list == []
      ensures old(list) != [] ==> id == Some(old(list)[|old(list)| - 1]) && list == Rotate(old(list))
    {
      if list == [] {
        return None;
      }
      var last := |list| - 1;
      id := Some(list[last]);
      list := [list[last]] + list[..last];
    }

    /** Drop the entry `id`, whose hash `e` is missing, not active or without a credential. */
    method Evict(id: Id, e: Entry)
      requires e == EntryAt(View(), id)
      modifies this`list, this`hash
      ensures View() == Evicted(old(View()), id)
      ensures forall other :: other != id && other in old(hash) ==> other in hash && hash[other] == old(hash)[other]
    {
      var missingCredential := id in hash && e.cred == "";
      ListRemove(id);
      if id in hash && !missingCredential {
        hash := hash - {id};
      }
    }

    /** `out` is the key to use, with the entry its request will be built from. */
    method SelectKey(limits: Limits, now: nat) returns (out: Option<(Id, Entry)>)
      modifies this`list, this`hash, ledger
      ensures var r := Selected(old(View()), old(SceneAt(limits, now)));
              && View() == r.0
              && out == (if r.1.NoActiveKeys? then None else Some((r.1.id, r.1.entry)))
              && ledger.View() == (if r.1.NoActiveKeys? then old(ledger.View()) else Recorded(old(ledger.View()), r.1.id, limits, now))
    {
      var maxSkip := 16;
      if |list| + 8 > maxSkip {
        maxSkip := |list| + 8;
      }
      if maxSkip > 512 {
        maxSkip := 512;
      }
      ghost var s := SceneAt(limits, now);
      ghost var r := Selected(View(), s);
      var cooled: Option<Id>, cooledEntry := None, NO_ENTRY;
      hide Search, Rotate, Evicted, Admits, Recorded, Healthy, Without;
      for attempt := 0 to maxSkip
        invariant r == Search(View(), s, maxSkip - attempt, cooled)
        invariant ledger.View() == old(ledger.View()) && db == old(db)
        invariant cooled.Some? ==> cooled.value in hash && cooledEntry == hash[cooled.value]
        invariant cooled.Some? ==> cooledEntry.status == Some(Active) && cooledEntry.cred != ""
      {
        ghost var p := View();
        SearchTurn(p, s, maxSkip - attempt, cooled);
        var rotated := RotateList();
        if rotated.None? {
          return None;
        }
        var id := rotated.value;
        assert View() == p.(list := Rotate(p.list));
        var e := ReadHash(id);
        if id !in hash || e.status != Some(Active) || e.cred == "" {
          Evict(id, e);
          continue;
        }
        if id in cooldown && now <= cooldown[id] {
          if cooled.None? {
            cooled, cooledEntry := Some(id), e;
          }
          continue;
        }
        NoLimitAdmits(s.counters, id, limits, now);
        if !limits.IsZero() {
          var ok := ledger.Allow(id, limits, now);
          if !ok {
            continue;
          }
        }
        ledger.Record(id, limits, now);
        return Some((id, e));
      }
      SearchOver(View(), s, cooled);
      if cooled.Some? {
        ledger.Record(cooled.value, limits, now);
        return Some((cooled.value, cooledEntry));
      }
      out := None;
    }
  }
}
