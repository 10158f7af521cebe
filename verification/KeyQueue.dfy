/** Where in the rotation a key waits after it was listed again. */
module KeyQueue {
  import opened Wrappers
  import Selections
  import opened RateLedger
  import opened KeyPool
  import opened KeySelection

  /** `rest` is `list` without `id`, in the order of `list`. */
  ghost predicate IsRest(list: seq<Id>, rest: seq<Id>, id: Id) {
    Selections.Selected(list, rest, x => x != id, x => x)
  }

  lemma {:induction false} WithoutIsRest(list: seq<Id>, id: Id)
    ensures IsRest(list, Without(list, id), id)
  {
    if list != [] {
      var front, x := list[..|list| - 1], list[|list| - 1];
      WithoutIsRest(front, id);
      Selections.SelectedPush(front, Without(front, id), y => y != id, y => y, x);
      assert list == front + [x];
      hide Selections.Selected;
      assert Without(front, id) + [] == Without(front, id);
    }
  }

  /** The key stands at the head, behind all others in the rotation, which keep their order. */
  ghost predicate Rejoined(p: Pool, q: Pool, id: Id) {
    q.list != [] && q.list[0] == id && IsRest(p.list, q.list[1..], id)
  }

  ghost predicate Left(p: Pool, q: Pool, id: Id) {
    IsRest(p.list, q.list, id)
  }

  lemma {:induction false} EnlistRejoins(p: Pool, q: Pool, id: Id)
    requires q.list == [id] + Without(p.list, id)
    ensures Rejoined(p, q, id)
  {
    WithoutIsRest(p.list, id);
    assert q.list[1..] == Without(p.list, id);
  }

  /** A recovered, enabled, restored or reloaded key rejoins the rotation; a blacklisted or disabled one leaves it. */
  lemma {:induction false} KeysRejoin(p: Pool, id: Id)
    requires Live(p, id)
    ensures var q := Succeeded(p, id);
            if EntryAt(p, id).status == Some(Disabled) || EntryAt(p, id).status == Some(Active) then q.list == p.list else Rejoined(p, q, id)
    ensures forall t :: Failed(p, id, t).list == p.list || Left(p, Failed(p, id, t), id)
    ensures Rejoined(p, Enabled(p, id, true), id) && Left(p, Enabled(p, id, false), id)
    ensures Rejoined(p, RestoredOne(p, id), id)
    ensures if p.db[id].status == Active then Rejoined(p, Reloaded(p, id), id) else Left(p, Reloaded(p, id), id)
  {
    WithoutIsRest(p.list, id);
    hide Without, Rejoined, IsRest;
    forall q: Pool | q.list == [id] + Without(p.list, id)
      ensures Rejoined(p, q, id)
    {
      EnlistRejoins(p, q, id);
    }
  }

  /** A sync puts a key that it makes servable at the head, takes one that is not active off, and moves no other. */
  lemma {:induction false} SyncRejoins(p: Pool, id: Id)
    requires id in p.db
    ensures var q, row := SyncedOne(p, id), p.db[id];
            if row.deleted || row.status != Active then Left(p, q, id)
            else if id !in p.hash then q.list == [id] + p.list
            else if p.hash[id].cred != "" && p.hash[id].status == Some(Active) then q.list == p.list
            else Rejoined(p, q, id)
  {
    WithoutIsRest(p.list, id);
    hide Without, IsRest;
    if SyncedOne(p, id).list == [id] + Without(p.list, id) {
      EnlistRejoins(p, SyncedOne(p, id), id);
    }
  }

  /** Added keys stand in front of all others, in the order in which they were added. */
  lemma {:induction false} AddedInFront(p: Pool, keys: seq<NewKey>)
    ensures var list := Added(p, keys).list;
            && |list| == |keys| + |p.list| && list[|keys|..] == p.list
            && forall i :: 0 <= i < |keys| ==> list[i] == keys[i].id
  {
    StoredList(p, keys);
    hide Stored;
  }

  lemma {:induction false} StoredList(p: Pool, keys: seq<NewKey>)
    ensures Stored(p, keys).list == p.list
  {
    if keys != [] {
      StoredList(p, keys[..|keys| - 1]);
    }
  }

  /** A key at the head of the rotation is served only when none of the others can be. */
  lemma {:induction false} HeadIsLast(p: Pool, s: Scene)
    requires 0 < |p.list| <= 512 && p.list[0] !in p.list[1..]
    ensures var pick := Selected(p, s).1;
            pick.Fresh? && pick.id == p.list[0] ==> forall x :: x in p.list[1..] ==> !Usable(p, s, x)
  {
    SelectionIsChoice(p, s);
    NextUsableIff(p, s, p.list[1..]);
    NextOfRest(p, s, p.list);
    hide Selected, Usable;
  }

  /** The search from the tail comes to the head last. */
  lemma {:induction false} NextOfRest(p: Pool, s: Scene, list: seq<Id>)
    requires list != []
    ensures NextUsable(p, s, list[1..]).Some? ==> NextUsable(p, s, list) == NextUsable(p, s, list[1..])
  {
    if |list| > 1 {
      var front := list[..|list| - 1];
      assert list[1..][..|list| - 2] == front[1..] && list[1..][|list| - 2] == list[|list| - 1];
      NextOfRest(p, s, front);
    }
    hide Usable;
  }
}
