/**
 * What key selection guarantees in any state of the pool, however far the list, the hashes and the
 * database have drifted apart.
 */
module KeySelection {
  import opened Wrappers
  import opened RateLedger
  import opened KeyPool

  ghost predicate NoDup(list: seq<Id>) {
    forall i, j :: 0 <= i < j < |list| ==> list[i] != list[j]
  }

  // ----- The choice, said without the loop -----

  /** The usable key nearest the tail. */
  function NextUsable(p: Pool, s: Scene, list: seq<Id>): Option<Id> {
    if list == [] then None
    else if Usable(p, s, list[|list| - 1]) then Some(list[|list| - 1])
    else NextUsable(p, s, list[..|list| - 1])
  }

  /** The healthy but cooled key nearest the tail. */
  function NextCooled(p: Pool, s: Scene, list: seq<Id>): Option<Id> {
    if list == [] then None
    else
      var id := list[|list| - 1];
      if Healthy(p, id) && Cooled(s, id) then Some(id) else NextCooled(p, s, list[..|list| - 1])
  }

  function Choice(p: Pool, s: Scene, list: seq<Id>, fallback: Option<Id>): Pick {
    var u := NextUsable(p, s, list);
    var c := if fallback.Some? then fallback else NextCooled(p, s, list);
    if u.Some? then Fresh(u.value, EntryAt(p, u.value))
    else if c.Some? then Fallback(c.value, EntryAt(p, c.value))
    else NoActiveKeys
  }

  /** What a search with that many attempts can reach. */
  function Reach(list: seq<Id>, attempts: nat): seq<Id> {
    if attempts >= |list| then list else list[|list| - attempts..]
  }

  lemma {:induction false} NextUsableIff(p: Pool, s: Scene, list: seq<Id>)
    ensures NextUsable(p, s, list).Some? <==> exists id :: id in list && Usable(p, s, id)
    ensures NextUsable(p, s, list).Some? ==> NextUsable(p, s, list).value in list && Usable(p, s, NextUsable(p, s, list).value)
  {
    if list != [] {
      var front, last := list[..|list| - 1], list[|list| - 1];
      NextUsableIff(p, s, front);
      assert list == front + [last];
      hide Usable;
    }
  }

  lemma {:induction false} NextCooledIff(p: Pool, s: Scene, list: seq<Id>)
    ensures NextCooled(p, s, list).Some? <==> exists id :: id in list && Healthy(p, id) && Cooled(s, id)
    ensures NextCooled(p, s, list).Some? ==>
              var id := NextCooled(p, s, list).value;
              id in list && Healthy(p, id) && Cooled(s, id)
  {
    if list != [] {
      var front, last := list[..|list| - 1], list[|list| - 1];
      NextCooledIff(p, s, front);
      assert list == front + [last];
      hide Healthy, Cooled;
    }
  }

  // ----- Removal -----

  lemma {:induction false} WithoutConcat(a: seq<Id>, b: seq<Id>, id: Id)
    ensures Without(a + b, id) == Without(a, id) + Without(b, id)
  {
    if b == [] {
      assert a + b == a;
    } else {
      assert (a + b)[..|a + b| - 1] == a + b[..|b| - 1];
      WithoutConcat(a, b[..|b| - 1], id);
    }
  }

  lemma {:induction false} NoDupIff(front: seq<Id>, last: Id)
    ensures NoDup(front + [last]) <==> NoDup(front) && last !in front
    ensures NoDup([])
  {
    var list := front + [last];
    assert list[|front|] == last && forall i :: 0 <= i < |front| ==> front[i] == list[i];
    if NoDup(list) {
      assert last !in front;
    }
  }

  lemma {:induction false} WithoutPush(front: seq<Id>, last: Id, id: Id)
    ensures Without(front + [last], id) == Without(front, id) + (if last == id then [] else [last])
    ensures Without([], id) == []
  {
    assert (front + [last])[..|front|] == front;
  }

  lemma {:induction false} WithoutMembers(list: seq<Id>, id: Id)
    ensures forall x :: x in Without(list, id) <==> x in list && x != id
    ensures |Without(list, id)| <= |list|
    ensures id !in list ==> Without(list, id) == list
    ensures NoDup(list) ==> NoDup(Without(list, id))
  {
    hide *;
    if list == [] {
      WithoutPush([], id, id);
      NoDupIff([], id);
    } else {
      var front, last := list[..|list| - 1], list[|list| - 1];
      assert list == front + [last];
      WithoutMembers(front, id);
      WithoutPush(front, last, id);
      NoDupIff(front, last);
      var rest := Without(front, id);
      NoDupIff(rest, last);
      assert rest + [] == rest;
    }
  }

  /** `q` differs from `p` at most in the entry of `id`, which is not healthy in either. */
  ghost predicate DifferAt(p: Pool, q: Pool, id: Id) {
    && !Healthy(p, id) && !Healthy(q, id)
    && forall other :: other != id ==> EntryAt(q, other) == EntryAt(p, other) && (other in q.hash <==> other in p.hash)
  }

  lemma {:induction false} SameUsable(p: Pool, q: Pool, s: Scene, id: Id, x: Id)
    requires DifferAt(p, q, id)
    ensures Healthy(p, x) <==> Healthy(q, x)
    ensures Usable(p, s, x) <==> Usable(q, s, x)
  {
    if x != id {
      assert EntryAt(q, x) == EntryAt(p, x);
    }
  }

  /** Evicting a key that cannot be chosen does not change which one would be. */
  lemma {:induction false} EvictKeepsNext(p: Pool, q: Pool, s: Scene, list: seq<Id>, id: Id)
    requires DifferAt(p, q, id)
    ensures NextUsable(q, s, Without(list, id)) == NextUsable(p, s, list)
    ensures NextCooled(q, s, Without(list, id)) == NextCooled(p, s, list)
  {
    if list != [] {
      var front, last := list[..|list| - 1], list[|list| - 1];
      EvictKeepsNext(p, q, s, front, id);
      SameUsable(p, q, s, id, last);
      assert !Usable(p, s, id) && !Healthy(p, id);
      hide DifferAt, Usable, Healthy, Cooled;
      var w := Without(list, id);
      if last != id {
        assert w == Without(front, id) + [last];
        assert w[..|w| - 1] == Without(front, id) && w[|w| - 1] == last;
        assert NextUsable(q, s, w) == if Usable(q, s, last) then Some(last) else NextUsable(q, s, Without(front, id));
        assert NextCooled(q, s, w) == if Healthy(q, last) && Cooled(s, last) then Some(last) else NextCooled(q, s, Without(front, id));
      } else {
        assert w == Without(front, id) + [];
        assert w == Without(front, id);
      }
    }
  }

  lemma {:induction false} EvictKeepsChoice(p: Pool, q: Pool, s: Scene, list: seq<Id>, id: Id, fallback: Option<Id>)
    requires DifferAt(p, q, id)
    requires fallback.Some? ==> fallback.value != id
    ensures Choice(q, s, Without(list, id), fallback) == Choice(p, s, list, fallback)
  {
    EvictKeepsNext(p, q, s, list, id);
    NextUsableIff(p, s, list);
    NextCooledIff(p, s, list);
  }

  lemma {:induction false} EvictedEntries(p: Pool, id: Id)
    requires !Healthy(p, id)
    ensures DifferAt(p, Evicted(p, id), id)
  {
  }

  // ----- The search computes the choice -----

  /** A key the search has passed over: healthy, but not usable. */
  predicate Passed(p: Pool, s: Scene, id: Id) {
    Healthy(p, id) && !Usable(p, s, id)
  }

  /** The list is `seen + ahead`, all of `seen` was passed over and `fallback` is the first cooled key among it. */
  ghost predicate Searching(p: Pool, s: Scene, seen: seq<Id>, ahead: seq<Id>, fallback: Option<Id>) {
    && p.list == seen + ahead
    && (forall id :: id in seen ==> Passed(p, s, id))
    && (fallback.Some? ==> fallback.value in seen)
    && (fallback.None? ==> forall id :: id in seen ==> !Cooled(s, id))
  }

  /** Once everything has been seen the search only rotates. */
  lemma {:induction false} SearchSpins(p: Pool, s: Scene, attempts: nat, fallback: Option<Id>)
    requires Searching(p, s, p.list, [], fallback)
    ensures Search(p, s, attempts, fallback).1
         == if fallback.Some? then Fallback(fallback.value, EntryAt(p, fallback.value)) else NoActiveKeys
    decreases attempts
  {
    if attempts > 0 && p.list != [] {
      var id, q := p.list[|p.list| - 1], p.(list := Rotate(p.list));
      assert id in p.list && Passed(p, s, id);
      assert q.list + [] == q.list;
      assert forall x :: x in q.list ==> x in p.list;
      assert p.list == p.list[..|p.list| - 1] + [id];
      assert EntryAt(q, id) == EntryAt(p, id);
      SearchSpins(q, s, attempts - 1, fallback);
    }
  }

  function Remembered(s: Scene, id: Id, fallback: Option<Id>): Option<Id> {
    if Cooled(s, id) && fallback.None? then Some(id) else fallback
  }

  lemma {:induction false} SameNext(p: Pool, q: Pool, s: Scene, list: seq<Id>)
    requires p.hash == q.hash
    ensures NextUsable(p, s, list) == NextUsable(q, s, list)
    ensures NextCooled(p, s, list) == NextCooled(q, s, list)
  {
    if list != [] {
      SameNext(p, q, s, list[..|list| - 1]);
    }
  }

  /** The choice depends on the hashes only. */
  lemma {:induction false} SameChoice(p: Pool, q: Pool, s: Scene, list: seq<Id>, fallback: Option<Id>)
    requires p.hash == q.hash
    ensures Choice(p, s, list, fallback) == Choice(q, s, list, fallback)
  {
    SameNext(p, q, s, list);
  }

  /** The last of `ahead` is reached first. */
  lemma {:induction false} ReachFirst(ahead: seq<Id>, attempts: nat)
    requires ahead != [] && attempts > 0
    ensures var reach := Reach(ahead, attempts);
            && reach != [] && reach[|reach| - 1] == ahead[|ahead| - 1]
            && reach[..|reach| - 1] == Reach(ahead[..|ahead| - 1], attempts - 1)
  {
  }

  lemma {:induction false} SearchChooses(p: Pool, s: Scene, seen: seq<Id>, ahead: seq<Id>, attempts: nat, fallback: Option<Id>)
    requires Searching(p, s, seen, ahead, fallback)
    requires attempts >= |ahead| || NoDup(ahead)
    ensures Search(p, s, attempts, fallback).1 == Choice(p, s, Reach(ahead, attempts), fallback)
    decreases attempts
  {
    hide Search, Choice, Admits, Cooled, Usable, Evicted, NoDup;
    if ahead == [] {
      assert seen + ahead == seen;
      SearchSpins(p, s, attempts, fallback);
      ChoiceOfNothing(p, s, fallback);
    } else if attempts > 0 {
      var id, front := ahead[|ahead| - 1], ahead[..|ahead| - 1];
      assert p.list[|p.list| - 1] == id;
      ReachFirst(ahead, attempts);
      SearchPeels(p, s, attempts, fallback);
      ChoicePeels(p, s, Reach(ahead, attempts), fallback);
      var q := p.(list := Rotate(p.list));
      hide Reach, Searching, Rotate, Healthy;
      if !Healthy(p, id) {
        StepEvicts(p, s, seen, ahead, attempts, fallback);
        SearchChooses(Evicted(q, id), s, seen, Without(front, id), attempts - 1, fallback);
      } else if !Usable(p, s, id) {
        StepPasses(p, s, seen, ahead, fallback);
        ReachUnique(ahead);
        SearchChooses(q, s, [id] + seen, front, attempts - 1, Remembered(s, id, fallback));
        SameChoice(p, q, s, Reach(front, attempts - 1), Remembered(s, id, fallback));
      }
    } else {
      SearchEnds(p, s, fallback);
      assert Reach(ahead, 0) == [];
      ChoiceOfNothing(p, s, fallback);
    }
  }

  lemma {:induction false} ChoiceOfNothing(p: Pool, s: Scene, fallback: Option<Id>)
    ensures Choice(p, s, [], fallback)
         == if fallback.Some? then Fallback(fallback.value, EntryAt(p, fallback.value)) else NoActiveKeys
  {
  }

  lemma {:induction false} SearchEnds(p: Pool, s: Scene, fallback: Option<Id>)
    ensures Search(p, s, 0, fallback).1
         == if fallback.Some? then Fallback(fallback.value, EntryAt(p, fallback.value)) else NoActiveKeys
  {
  }

  lemma {:induction false} SearchPeels(p: Pool, s: Scene, attempts: nat, fallback: Option<Id>)
    requires attempts > 0 && p.list != []
    ensures var id, q := p.list[|p.list| - 1], p.(list := Rotate(p.list));
            && Search(p, s, attempts, fallback).1
               == if !Healthy(p, id) then Search(Evicted(q, id), s, attempts - 1, fallback).1
                  else if !Usable(p, s, id) then Search(q, s, attempts - 1, Remembered(s, id, fallback)).1
                  else Fresh(id, EntryAt(p, id))
  {
  }

  lemma {:induction false} ChoicePeels(p: Pool, s: Scene, list: seq<Id>, fallback: Option<Id>)
    requires list != []
    ensures var id, front := list[|list| - 1], list[..|list| - 1];
            && Choice(p, s, list, fallback)
               == if !Healthy(p, id) then Choice(p, s, front, fallback)
                  else if !Usable(p, s, id) then Choice(p, s, front, Remembered(s, id, fallback))
                  else Fresh(id, EntryAt(p, id))
  {
  }

  lemma {:induction false} ReachUnique(ahead: seq<Id>)
    requires ahead != []
    ensures NoDup(ahead) ==> NoDup(ahead[..|ahead| - 1])
  {
  }

  /** Passing a key over keeps the search invariant. */
  lemma {:induction false} StepPasses(p: Pool, s: Scene, seen: seq<Id>, ahead: seq<Id>, fallback: Option<Id>)
    requires Searching(p, s, seen, ahead, fallback) && ahead != []
    requires Passed(p, s, ahead[|ahead| - 1])
    ensures var id := ahead[|ahead| - 1];
            Searching(p.(list := Rotate(p.list)), s, [id] + seen, ahead[..|ahead| - 1], Remembered(s, id, fallback))
  {
    var id, front := ahead[|ahead| - 1], ahead[..|ahead| - 1];
    assert Rotate(p.list) == ([id] + seen) + front;
  }

  /** So does evicting one, and the remaining search makes the same choice. */
  lemma {:induction false} StepEvicts(p: Pool, s: Scene, seen: seq<Id>, ahead: seq<Id>, attempts: nat, fallback: Option<Id>)
    requires Searching(p, s, seen, ahead, fallback) && ahead != [] && attempts > 0
    requires attempts >= |ahead| || NoDup(ahead)
    requires !Healthy(p, ahead[|ahead| - 1])
    ensures var id, front := ahead[|ahead| - 1], ahead[..|ahead| - 1];
            var r, rest := Evicted(p.(list := Rotate(p.list)), id), Without(front, id);
            && Searching(r, s, seen, rest, fallback)
            && (attempts - 1 >= |rest| || NoDup(rest))
            && Choice(r, s, Reach(rest, attempts - 1), fallback) == Choice(p, s, Reach(front, attempts - 1), fallback)
  {
    var id, front := ahead[|ahead| - 1], ahead[..|ahead| - 1];
    var q := p.(list := Rotate(p.list));
    assert ahead == front + [id];
    assert id !in seen && (fallback.Some? ==> fallback.value != id);
    EvictedList(p, seen, front, id);
    EvictedEntries(q, id);
    StillSearching(p, Evicted(q, id), s, seen, ahead, Without(front, id), id, fallback);
    assert DifferAt(p, Evicted(q, id), id);
    hide *;
    EvictReach(p, Evicted(q, id), s, ahead, attempts, id, fallback);
  }

  lemma {:induction false} StillSearching(p: Pool, r: Pool, s: Scene, seen: seq<Id>, ahead: seq<Id>, rest: seq<Id>, id: Id, fallback: Option<Id>)
    requires Searching(p, s, seen, ahead, fallback) && DifferAt(p, r, id) && r.list == seen + rest
    ensures Searching(r, s, seen, rest, fallback)
  {
    hide DifferAt, Usable, Healthy, Cooled;
    forall x | x in seen
      ensures Passed(r, s, x)
    {
      SameUsable(p, r, s, id, x);
    }
  }

  /** The keys within reach are the same after the eviction, but for the evicted one. */
  lemma {:induction false} EvictReach(p: Pool, r: Pool, s: Scene, ahead: seq<Id>, attempts: nat, id: Id, fallback: Option<Id>)
    requires ahead != [] && attempts > 0 && id == ahead[|ahead| - 1] && DifferAt(p, r, id)
    requires attempts >= |ahead| || NoDup(ahead)
    requires fallback.Some? ==> fallback.value != id
    ensures var front := ahead[..|ahead| - 1];
            && (attempts - 1 >= |Without(front, id)| || NoDup(Without(front, id)))
            && Choice(r, s, Reach(Without(front, id), attempts - 1), fallback) == Choice(p, s, Reach(front, attempts - 1), fallback)
  {
    var front := ahead[..|ahead| - 1];
    WithoutMembers(front, id);
    if attempts >= |ahead| {
      hide DifferAt, Without, Choice;
      EvictKeepsChoice(p, r, s, front, id, fallback);
    } else {
      assert id !in front by {
        assert forall i :: 0 <= i < |front| ==> ahead[i] == front[i];
      }
      var reach := Reach(front, attempts - 1);
      assert id !in reach;
      WithoutMembers(reach, id);
      ReachUnique(ahead);
      hide DifferAt, Without, Choice, NoDup;
      EvictKeepsChoice(p, r, s, reach, id, fallback);
    }
  }

  lemma {:induction false} EvictedList(p: Pool, seen: seq<Id>, front: seq<Id>, id: Id)
    requires p.list == seen + (front + [id]) && id !in seen
    ensures Evicted(p.(list := Rotate(p.list)), id).list == seen + Without(front, id)
  {
    assert Rotate(p.list) == [id] + (seen + front);
    assert Evicted(p.(list := Rotate(p.list)), id).list == Without(Rotate(p.list), id);
    hide *;
    WithoutOne(id);
    WithoutConcat([id], seen + front, id);
    WithoutConcat(seen, front, id);
    WithoutMembers(seen, id);
    assert [] + (seen + Without(front, id)) == seen + Without(front, id);
  }

  lemma {:induction false} WithoutOne(id: Id)
    ensures Without([id], id) == []
  {
    assert [id][..0] == [];
  }

  // ----- What a search leaves behind -----

  function Elems(list: seq<Id>): set<Id> {
    set id | id in list
  }

  function Keep(list: seq<Id>, ids: set<Id>): seq<Id> {
    if list == [] then []
    else Keep(list[..|list| - 1], ids) + (if list[|list| - 1] in ids then [list[|list| - 1]] else [])
  }

  ghost predicate IsRotation(a: seq<Id>, b: seq<Id>) {
    exists k :: 0 <= k <= |a| && b == a[k..] + a[..k]
  }

  lemma {:induction false} KeepConcat(a: seq<Id>, b: seq<Id>, ids: set<Id>)
    ensures Keep(a + b, ids) == Keep(a, ids) + Keep(b, ids)
  {
    if b == [] {
      assert a + b == a;
    } else {
      assert (a + b)[..|a + b| - 1] == a + b[..|b| - 1];
      KeepConcat(a, b[..|b| - 1], ids);
    }
  }

  lemma {:induction false} KeepWithout(list: seq<Id>, id: Id, ids: set<Id>)
    requires id !in ids
    ensures Keep(Without(list, id), ids) == Keep(list, ids)
  {
    if list != [] {
      var front, last := list[..|list| - 1], list[|list| - 1];
      KeepWithout(front, id, ids);
      var rest := if last == id then [] else [last];
      assert Without(list, id) == Without(front, id) + rest;
      KeepConcat(Without(front, id), rest, ids);
      KeepOne(last, ids);
    }
  }

  lemma {:induction false} KeepOne(id: Id, ids: set<Id>)
    ensures Keep([id], ids) == if id in ids then [id] else []
  {
    assert [id][..0] == [];
  }

  lemma {:induction false} KeepAll(list: seq<Id>, ids: set<Id>)
    requires forall id :: id in list ==> id in ids
    ensures Keep(list, ids) == list
  {
    if list != [] {
      var front := list[..|list| - 1];
      assert list == front + [list[|list| - 1]];
      KeepAll(front, ids);
    }
  }

  lemma {:induction false} RotateIsRotation(list: seq<Id>, ids: set<Id>)
    requires list != []
    ensures IsRotation(Keep(list, ids), Keep(Rotate(list), ids))
  {
    var front, last := list[..|list| - 1], [list[|list| - 1]];
    assert list == front + last;
    KeepConcat(front, last, ids);
    KeepConcat(last, front, ids);
    var a, k := Keep(list, ids), |Keep(front, ids)|;
    assert Keep(Rotate(list), ids) == a[k..] + a[..k];
  }

  lemma {:induction false} RotationsCompose(a: seq<Id>, b: seq<Id>, c: seq<Id>)
    requires IsRotation(a, b) && IsRotation(b, c)
    ensures IsRotation(a, c)
  {
    var k :| 0 <= k <= |a| && b == a[k..] + a[..k];
    var l :| 0 <= l <= |b| && c == b[l..] + b[..l];
    if k + l <= |a| {
      RotateTwice(a, k, l);
    } else {
      RotateRound(a, k, l);
    }
  }

  lemma {:induction false} RotateTwice(a: seq<Id>, k: nat, l: nat)
    requires k + l <= |a|
    ensures var b := a[k..] + a[..k];
            b[l..] + b[..l] == a[k + l..] + a[..k + l]
  {
    var b := a[k..] + a[..k];
    assert b[l..] == a[k + l..] + a[..k];
    assert b[..l] == a[k..k + l];
    assert a[..k] + a[k..k + l] == a[..k + l];
    assert (a[k + l..] + a[..k]) + a[k..k + l] == a[k + l..] + (a[..k] + a[k..k + l]);
  }

  lemma {:induction false} RotateRound(a: seq<Id>, k: nat, l: nat)
    requires k <= |a| && l <= |a| < k + l
    ensures var b := a[k..] + a[..k];
            b[l..] + b[..l] == a[k + l - |a|..] + a[..k + l - |a|]
  {
    var b, m := a[k..] + a[..k], k + l - |a|;
    assert b[l..] == a[m..k];
    assert b[..l] == a[k..] + a[..m];
    assert a[m..k] + a[k..] == a[m..];
    assert a[m..k] + (a[k..] + a[..m]) == (a[m..k] + a[k..]) + a[..m];
  }

  /**
   * A search only ever drops entries that are not healthy and leaves the rest in the same cyclic order;
   * the rows are untouched, and only hashes of dropped keys that had a credential are deleted.
   */
  ghost predicate Tidied(p: Pool, r: Pool) {
    r.db == p.db && TidiedList(p, r) && TidiedHash(p, r)
  }

  ghost predicate TidiedList(p: Pool, r: Pool) {
    && Elems(r.list) <= Elems(p.list)
    && IsRotation(Keep(p.list, Elems(r.list)), r.list)
    && forall id :: id in p.list && Healthy(p, id) ==> id in r.list
  }

  ghost predicate TidiedHash(p: Pool, r: Pool) {
    && (forall id :: id in r.hash ==> id in p.hash && r.hash[id] == p.hash[id])
    && forall id :: id in p.hash && id !in r.hash ==> !Healthy(p, id) && p.hash[id].cred != "" && id in p.list && id !in r.list
  }

  lemma {:induction false} TidiedSelf(p: Pool)
    ensures Tidied(p, p)
  {
    KeepAll(p.list, Elems(p.list));
    assert p.list == p.list[0..] + p.list[..0];
  }

  lemma {:induction false} TidiedRotate(p: Pool, r: Pool)
    requires p.list != [] && Tidied(p.(list := Rotate(p.list)), r)
    ensures Tidied(p, r)
  {
    var q := p.(list := Rotate(p.list));
    var ids := Elems(r.list);
    SameElems(p.list);
    RotateIsRotation(p.list, ids);
    RotationsCompose(Keep(p.list, ids), Keep(q.list, ids), r.list);
  }

  lemma {:induction false} SameElems(list: seq<Id>)
    requires list != []
    ensures forall id :: id in Rotate(list) <==> id in list
    ensures Elems(Rotate(list)) == Elems(list)
  {
    assert list == list[..|list| - 1] + [list[|list| - 1]];
  }

  lemma {:induction false} TidiedEvict(p: Pool, r: Pool, id: Id)
    requires id in p.list && !Healthy(p, id) && Tidied(Evicted(p, id), r)
    ensures Tidied(p, r)
  {
    var q := Evicted(p, id);
    EvictedEntries(p, id);
    WithoutMembers(p.list, id);
    assert q.db == p.db && q.list == Without(p.list, id);
    assert forall x :: x in q.hash ==> x in p.hash && q.hash[x] == p.hash[x];
    assert forall x :: x in p.hash && x !in q.hash ==> x == id && p.hash[x].cred != "";
    hide *;
    EvictedTidyList(p, q, r, id);
    EvictedTidyHash(p, q, r, id);
    JoinTidied(p, q, r);
  }

  lemma {:induction false} JoinTidied(p: Pool, q: Pool, r: Pool)
    requires TidiedList(p, r) && TidiedHash(p, r) && Tidied(q, r) && q.db == p.db
    ensures Tidied(p, r)
  {
    hide TidiedList, TidiedHash;
  }

  lemma {:induction false} EvictedTidyList(p: Pool, q: Pool, r: Pool, id: Id)
    requires Tidied(q, r) && q.list == Without(p.list, id) && DifferAt(p, q, id)
    ensures TidiedList(p, r)
  {
    WithoutMembers(p.list, id);
    assert id !in Elems(r.list);
    KeepWithout(p.list, id, Elems(r.list));
    hide Keep, Without, IsRotation, TidiedHash;
    forall x | x in p.list && Healthy(p, x)
      ensures x in r.list
    {
      SameUsable(p, q, Scene(map[], Counters(map[], map[]), Limits(0, 0), 0), id, x);
    }
  }

  lemma {:induction false} EvictedTidyHash(p: Pool, q: Pool, r: Pool, id: Id)
    requires Tidied(q, r) && id in p.list && !Healthy(p, id) && (forall x :: x in q.list <==> x in p.list && x != id)
    requires forall x :: x in q.hash ==> x in p.hash && q.hash[x] == p.hash[x]
    requires forall x :: x in p.hash && x !in q.hash ==> x == id && p.hash[x].cred != ""
    ensures TidiedHash(p, r)
  {
    assert Elems(r.list) <= Elems(q.list);
    assert id !in r.list by {
      assert id in r.list ==> id in Elems(r.list);
    }
    hide TidiedList;
    forall x | x in p.hash && x !in r.hash
      ensures !Healthy(p, x) && p.hash[x].cred != "" && x in p.list && x !in r.list
    {
      if x in q.hash {
        assert q.hash[x] == p.hash[x];
      }
    }
  }

  lemma {:induction false} SearchTidies(p: Pool, s: Scene, attempts: nat, fallback: Option<Id>)
    ensures Tidied(p, Search(p, s, attempts, fallback).0)
    decreases attempts
  {
    hide Tidied, Admits, Cooled, Evicted, Healthy;
    if attempts == 0 || p.list == [] {
      TidiedSelf(p);
    } else {
      var id, q := p.list[|p.list| - 1], p.(list := Rotate(p.list));
      var r := Search(p, s, attempts, fallback).0;
      assert id in q.list;
      hide Rotate;
      if !Healthy(p, id) {
        SameHealth(p, q, id);
        SearchTidies(Evicted(q, id), s, attempts - 1, fallback);
        TidiedEvict(q, r, id);
      } else if Cooled(s, id) {
        SearchTidies(q, s, attempts - 1, if fallback.None? then Some(id) else fallback);
      } else if !Admits(s.counters, id, s.limits, s.now) {
        SearchTidies(q, s, attempts - 1, fallback);
      } else {
        TidiedSelf(q);
      }
      TidiedRotate(p, r);
    }
  }

  lemma {:induction false} SameHealth(p: Pool, q: Pool, id: Id)
    requires p.hash == q.hash
    ensures Healthy(p, id) <==> Healthy(q, id)
  {
  }

  /** Whatever a search picks is healthy, and a first choice is also neither cooled nor over its limit. */
  lemma {:induction false} PickIsHealthy(p: Pool, s: Scene, attempts: nat, fallback: Option<Id>)
    requires fallback.Some? ==> Healthy(p, fallback.value) && Cooled(s, fallback.value)
    ensures var pick := Search(p, s, attempts, fallback).1;
            && (pick.Fresh? ==> Usable(p, s, pick.id))
            && (pick.Fallback? ==> Healthy(p, pick.id) && Cooled(s, pick.id))
            && (!pick.NoActiveKeys? ==> pick.entry == EntryAt(p, pick.id))
    decreases attempts
  {
    if attempts > 0 && p.list != [] {
      var id, q := p.list[|p.list| - 1], p.(list := Rotate(p.list));
      if !Healthy(p, id) {
        var r := Evicted(q, id);
        EvictedEntries(q, id);
        PickIsHealthy(r, s, attempts - 1, fallback);
        var pick := Search(r, s, attempts - 1, fallback).1;
        if !pick.NoActiveKeys? {
          SameUsable(p, r, s, id, pick.id);
        }
      } else if Cooled(s, id) || !Admits(s.counters, id, s.limits, s.now) {
        PickIsHealthy(q, s, attempts - 1, Remembered(s, id, fallback));
      }
    }
  }

  // ----- Main results -----

  /**
   * Selection finds the usable key nearest the tail, else the cooled key nearest the tail, else none:
   * among all entries for a list of up to 512, whatever its state, and among the last 512 of a longer
   * list without duplicates.
   */
  lemma {:induction false} SelectionIsChoice(p: Pool, s: Scene)
    requires |p.list| <= 512 || NoDup(p.list)
    ensures Selected(p, s).1 == Choice(p, s, Reach(p.list, 512), None)
  {
    assert [] + p.list == p.list;
    SearchChooses(p, s, [], p.list, MaxSkip(|p.list|), None);
  }

  /** The key is cached as active, with a credential. */
  predicate Intact(p: Pool, id: Id) {
    id in p.hash && p.hash[id] == Entry(p.hash[id].cred, Some(Active), p.hash[id].fails) && p.hash[id].cred != ""
  }

  /** A cooldown was set for the key that has not run out. */
  predicate OnIce(s: Scene, id: Id) {
    id in s.cooldown && s.cooldown[id] >= s.now
  }

  /** The requests counted for the key in this minute and this day leave room for one more. */
  predicate HasRoom(s: Scene, id: Id) {
    var minute, day := (id, s.now / 60_000_000_000), (id, s.now / 86_400_000_000_000);
    && (s.limits.rpm <= 0 || minute !in s.counters.minutes || s.counters.minutes[minute] < s.limits.rpm)
    && (s.limits.rpd <= 0 || day !in s.counters.days || s.counters.days[day] < s.limits.rpd)
  }

  lemma {:induction false} UsableIs(p: Pool, s: Scene, id: Id)
    ensures Healthy(p, id) <==> Intact(p, id)
    ensures Cooled(s, id) <==> OnIce(s, id)
    ensures Usable(p, s, id) <==> Intact(p, id) && !OnIce(s, id) && HasRoom(s, id)
  {
  }

  /**
   * In a list of up to 512 entries a key that is intact, off the ice and has room is found if there is one; else
   * one that is intact but on ice, if there is one; else none.
   */
  lemma {:induction false} SelectionComplete(p: Pool, s: Scene)
    requires |p.list| <= 512
    ensures var pick := Selected(p, s).1;
            && (pick.Fresh? <==> exists id :: id in p.list && Intact(p, id) && !OnIce(s, id) && HasRoom(s, id))
            && (pick.Fresh? ==> !OnIce(s, pick.id) && HasRoom(s, pick.id))
            && (pick.NoActiveKeys? <==> forall id :: id in p.list && Intact(p, id) ==> !OnIce(s, id) && !HasRoom(s, id))
            && (!pick.NoActiveKeys? ==> pick.id in p.list && Intact(p, pick.id) && pick.entry == p.hash[pick.id])
  {
    SelectionIsChoice(p, s);
    NextUsableIff(p, s, p.list);
    NextCooledIff(p, s, p.list);
    forall id
      ensures Healthy(p, id) <==> Intact(p, id)
      ensures Cooled(s, id) <==> OnIce(s, id)
      ensures Usable(p, s, id) <==> Intact(p, id) && !OnIce(s, id) && HasRoom(s, id)
    {
      UsableIs(p, s, id);
    }
    HealthyEntry(p);
    hide Selected, Admits, Usable, Healthy, Cooled, Intact, OnIce, HasRoom, NextUsable, NextCooled;
  }

  lemma {:induction false} HealthyEntry(p: Pool)
    ensures forall id :: Intact(p, id) ==> id in p.hash && EntryAt(p, id) == p.hash[id]
  {
  }

  /** For every state and every outcome: selection is safe for the pool. */
  lemma {:induction false} SelectionTidies(p: Pool, s: Scene)
    ensures Tidied(p, Selected(p, s).0)
  {
    SearchTidies(p, s, MaxSkip(|p.list|), None);
  }

  /**
   * A regular selection keeps every window within its limit; the cooldown fallback does so exactly when
   * the key it falls back on still had room.
   */
  lemma {:induction false} SelectionWithinLimits(p: Pool, s: Scene)
    requires WithinLimits(s.counters, s.limits)
    ensures var pick := Selected(p, s).1;
            && (pick.Fresh? ==> WithinLimits(Recorded(s.counters, pick.id, s.limits, s.now), s.limits))
            && (pick.Fallback? ==>
                  (WithinLimits(Recorded(s.counters, pick.id, s.limits, s.now), s.limits) <==> Admits(s.counters, pick.id, s.limits, s.now)))
  {
    PickIsHealthy(p, s, MaxSkip(|p.list|), None);
    var pick := Selected(p, s).1;
    if !pick.NoActiveKeys? {
      RecordWithinIff(s.counters, pick.id, s.limits, s.now);
    }
  }

  // ----- Whole runs of selections -----

  /** One selection: the pool may have become anything since the last, and the clock is read anew. */
  datatype Request = Request(pool: Pool, cooldown: map<Id, int>, now: nat)

  const NO_COUNTERS := Counters(map[], map[])

  function PickFor(c: Counters, l: Limits, r: Request): Pick {
    Selected(r.pool, Scene(r.cooldown, c, l, r.now)).1
  }

  /** The counters after the requests `rs`, from an empty ledger. */
  function Charged(l: Limits, rs: seq<Request>): Counters {
    if rs == [] then NO_COUNTERS
    else
      var c, r := Charged(l, rs[..|rs| - 1]), rs[|rs| - 1];
      var pick := PickFor(c, l, r);
      if pick.NoActiveKeys? then c else Recorded(c, pick.id, l, r.now)
  }

  /** Some request fell back on a cooled key that had no room left. */
  predicate Overdrawn(l: Limits, rs: seq<Request>) {
    rs != [] &&
      var c, r := Charged(l, rs[..|rs| - 1]), rs[|rs| - 1];
      var pick := PickFor(c, l, r);
      Overdrawn(l, rs[..|rs| - 1]) || (pick.Fallback? && !Admits(c, pick.id, l, r.now))
  }

  /** A window that holds too many requests keeps them. */
  lemma {:induction false} ExcessStays(c: Counters, id: Id, l: Limits, now: nat)
    requires !WithinLimits(c, l)
    ensures !WithinLimits(Recorded(c, id, l, now), l)
  {
    var d := Recorded(c, id, l, now);
    if l.rpm > 0 && exists k :: k in c.minutes && c.minutes[k] > l.rpm {
      var k :| k in c.minutes && c.minutes[k] > l.rpm;
      assert k in d.minutes && d.minutes[k] >= c.minutes[k];
    } else {
      var k :| k in c.days && c.days[k] > l.rpd;
      assert k in d.days && d.days[k] >= c.days[k];
    }
  }

  /** How many of the requests were given key `id` at a time from `from` on and before `to`. */
  function Picks(l: Limits, rs: seq<Request>, id: Id, from: nat, to: nat): nat {
    if rs == [] then 0
    else
      var front, r := rs[..|rs| - 1], rs[|rs| - 1];
      var pick := PickFor(Charged(l, front), l, r);
      Picks(l, front, id, from, to) + (if !pick.NoActiveKeys? && pick.id == id && from <= r.now < to then 1 else 0)
  }

  /** No key was given to more requests within a clock minute, or a day of UTC, than its limits allow. */
  ghost predicate WindowsHold(l: Limits, rs: seq<Request>) {
    && (l.rpm > 0 ==> forall id: Id, m: nat :: InMinute(l, rs, id, m) <= l.rpm)
    && (l.rpd > 0 ==> forall id: Id, d: nat :: InDay(l, rs, id, d) <= l.rpd)
  }

  /** `m` counts the minutes of Unix time; times are in nanoseconds. */
  function InMinute(l: Limits, rs: seq<Request>, id: Id, m: nat): nat {
    Picks(l, rs, id, m * 60 * 1_000_000_000, (m + 1) * 60 * 1_000_000_000)
  }

  function InDay(l: Limits, rs: seq<Request>, id: Id, d: nat): nat {
    Picks(l, rs, id, d * 24 * 3600 * 1_000_000_000, (d + 1) * 24 * 3600 * 1_000_000_000)
  }

  lemma {:induction false} CountsRecorded(c: Counters, x: Id, l: Limits, now: nat, id: Id, m: nat)
    ensures l.rpm > 0 ==> Count(Recorded(c, x, l, now).minutes, id, m)
                          == Count(c.minutes, id, m) + (if x == id && m * 60 * 1_000_000_000 <= now < (m + 1) * 60 * 1_000_000_000 then 1 else 0)
    ensures l.rpd > 0 ==> Count(Recorded(c, x, l, now).days, id, m)
                          == Count(c.days, id, m) + (if x == id && m * 24 * 3600 * 1_000_000_000 <= now < (m + 1) * 24 * 3600 * 1_000_000_000 then 1 else 0)
  {
    Windowed(now, MINUTE, m);
    Windowed(now, DAY, m);
  }

  lemma {:induction false} Windowed(now: nat, width: nat, m: nat)
    requires width > 0
    ensures now / width == m <==> m * width <= now < (m + 1) * width
  {
    var q := now / width;
    assert now == q * width + now % width;
    if q < m {
      Scaled(q + 1, m, width);
      assert (q + 1) * width == q * width + width;
    } else if q > m {
      Scaled(m + 1, q, width);
    }
  }

  lemma {:induction false} Scaled(x: nat, y: nat, width: nat)
    requires x <= y
    ensures x * width <= y * width
  {
  }

  /** The counters count the requests of each window. */
  lemma {:induction false} CountersCount(l: Limits, rs: seq<Request>, id: Id, m: nat)
    ensures l.rpm > 0 ==> Count(Charged(l, rs).minutes, id, m) == InMinute(l, rs, id, m)
    ensures l.rpd > 0 ==> Count(Charged(l, rs).days, id, m) == InDay(l, rs, id, m)
  {
    if rs != [] {
      var front, r := rs[..|rs| - 1], rs[|rs| - 1];
      CountersCount(l, front, id, m);
      var c := Charged(l, front);
      var pick := PickFor(c, l, r);
      hide PickFor, Recorded, Count;
      if !pick.NoActiveKeys? {
        CountsRecorded(c, pick.id, l, r.now, id, m);
      }
    }
  }

  lemma {:induction false} WithinIsCount(c: Counters, l: Limits)
    ensures WithinLimits(c, l) <==>
              && (l.rpm > 0 ==> forall id: Id, m: nat :: Count(c.minutes, id, m) <= l.rpm)
              && (l.rpd > 0 ==> forall id: Id, d: nat :: Count(c.days, id, d) <= l.rpd)
  {
    if l.rpm > 0 && forall id: Id, m: nat :: Count(c.minutes, id, m) <= l.rpm {
      assert forall k :: k in c.minutes ==> c.minutes[k] == Count(c.minutes, k.0, k.1);
    }
    if l.rpd > 0 && forall id: Id, d: nat :: Count(c.days, id, d) <= l.rpd {
      assert forall k :: k in c.days ==> c.days[k] == Count(c.days, k.0, k.1);
    }
  }

  lemma {:induction false} WithinIsWindows(l: Limits, rs: seq<Request>)
    ensures WithinLimits(Charged(l, rs), l) <==> WindowsHold(l, rs)
  {
    WithinIsCount(Charged(l, rs), l);
    hide Charged, InMinute, InDay, Count, WithinLimits;
    forall id: Id, m: nat
      ensures l.rpm > 0 ==> Count(Charged(l, rs).minutes, id, m) == InMinute(l, rs, id, m)
      ensures l.rpd > 0 ==> Count(Charged(l, rs).days, id, m) == InDay(l, rs, id, m)
    {
      CountersCount(l, rs, id, m);
    }
  }

  lemma {:induction false} RunWithinIff(l: Limits, rs: seq<Request>)
    ensures WithinLimits(Charged(l, rs), l) <==> !Overdrawn(l, rs)
  {
    if rs != [] {
      var front, r := rs[..|rs| - 1], rs[|rs| - 1];
      RunWithinIff(l, front);
      var c := Charged(l, front);
      var s := Scene(r.cooldown, c, l, r.now);
      var pick := PickFor(c, l, r);
      hide Selected, Recorded, Admits, WithinLimits;
      if WithinLimits(c, l) {
        SelectionWithinLimits(r.pool, s);
      } else if !pick.NoActiveKeys? {
        ExcessStays(c, pick.id, l, r.now);
      }
    }
  }

  /**
   * Over every run of selections, at any times and from any pools, no key is given to more requests within a
   * clock minute or a day than its limits allow, exactly as long as no request falls back on a cooled key
   * without room.
   */
  lemma {:induction false} LimitsHoldIff(l: Limits, rs: seq<Request>)
    ensures WindowsHold(l, rs) <==> !Overdrawn(l, rs)
  {
    WithinIsWindows(l, rs);
    RunWithinIff(l, rs);
  }
}
