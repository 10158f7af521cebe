/**
 * The JSON body as the program holds it: maps and slices updated in place. Setting and deleting change
 * one container and nothing else; on an unshared tree that is exactly the update of the value.
 */
module JsonTree {
  import opened Wrappers
  import opened JsonPath

  /** A scalar, or a reference to a container. */
  datatype Val = Leaf(json: Json) | Ref(node: Container)

  ghost function TreeOf(v: Val): Json
    reads if v.Ref? then {v.node} else {}
  {
    match v
    case Leaf(j) => j
    case Ref(n) => n.tree
  }

  ghost function NodesOf(v: Val): set<Container>
    reads if v.Ref? then {v.node} else {}
  {
    match v
    case Leaf(_) => {}
    case Ref(n) => n.repr
  }

  predicate Scalar(j: Json) {
    !j.Arr? && !j.Obj?
  }

  /** `tree` is the value the container stands for, `repr` the containers it consists of. */
  class Container {
    var isMap: bool
    var fields: map<string, Val>
    var items: seq<Val>
    ghost var tree: Json
    ghost var repr: set<Container>

    /** The child `v` lives within this container. */
    ghost predicate Holds(v: Val)
      reads this, repr
      decreases repr, 0
    {
      match v
      case Leaf(j) => Scalar(j)
      case Ref(n) => n in repr && n.repr < repr && this !in n.repr && n.Valid()
    }

    ghost predicate ValidFields()
      reads this, repr
      decreases repr, 1
    {
      && tree.Obj? && tree.fields.Keys == fields.Keys
      && (forall k :: k in fields ==> Holds(fields[k]) && TreeOf(fields[k]) == tree.fields[k])
      && (forall k, l :: k in fields && l in fields && k != l ==> NodesOf(fields[k]) !! NodesOf(fields[l]))
    }

    ghost predicate ValidItems()
      reads this, repr
      decreases repr, 1
    {
      && tree.Arr? && |tree.items| == |items|
      && (forall i :: 0 <= i < |items| ==> Holds(items[i]) && TreeOf(items[i]) == tree.items[i])
      && (forall i, j :: 0 <= i < j < |items| ==> NodesOf(items[i]) !! NodesOf(items[j]))
    }

    /** Every container is reached by one path only. */
    ghost predicate Valid()
      reads this, repr
      decreases repr, 2
    {
      this in repr && if isMap then ValidFields() else ValidItems()
    }

    /** `v` is a well-formed value that shares nothing with this container. */
    ghost predicate Fresh(v: Val)
      reads this, if v.Ref? then {v.node} + v.node.repr else {}
    {
      match v
      case Leaf(j) => Scalar(j)
      case Ref(n) => n.Valid() && n.repr !! repr
    }

    /** The empty object. */
    constructor ()
      ensures Valid() && isMap && tree == Obj(map[]) && repr == {this}
    {
      isMap, fields, items := true, map[], [];
      tree, repr := Obj(map[]), {this};
    }

    method Child(seg: string) returns (v: Option<Val>)
      requires Valid()
      ensures v.Some? <==> Descend(tree, seg).Some?
      ensures v.Some? ==> Holds(v.value) && TreeOf(v.value) == Descend(tree, seg).value
      ensures v.Some? ==> if isMap then seg in fields && v.value == fields[seg]
                          else SliceIndex(seg, |items|).Some? && v.value == items[SliceIndex(seg, |items|).value]
    {
      if isMap {
        v := if seg in fields then Some(fields[seg]) else None;
      } else {
        var i := SliceIndex(seg, |items|);
        v := if i.Some? then Some(items[i.value]) else None;
      }
    }

    /** Follow `segs` from container to container. */
    method Walk(segs: Path) returns (v: Option<Val>)
      requires Valid()
      ensures v.Some? <==> GetAt(tree, segs).Some?
      ensures v.Some? ==> TreeOf(v.value) == GetAt(tree, segs).value
    {
      var cur := Ref(this);
      for i := 0 to |segs|
        invariant match cur
                  case Leaf(j) => Scalar(j)
                  case Ref(n) => n.Valid() && n.repr <= repr
        invariant GetAt(tree, segs) == GetAt(TreeOf(cur), segs[i..])
      {
        assert segs[i..][0] == segs[i] && segs[i..][1..] == segs[i + 1..];
        if cur.Leaf? {
          return None;
        }
        var next := cur.node.Child(segs[i]);
        if next.None? {
          return None;
        }
        cur := next.value;
      }
      v := Some(cur);
    }

    method GetPath(path: string) returns (v: Option<Val>)
      requires Valid()
      ensures v.Some? <==> JsonPath.GetPath(tree, path).Some?
      ensures v.Some? ==> TreeOf(v.value) == JsonPath.GetPath(tree, path).value
    {
      if path == "" {
        return None;
      }
      v := Walk(Split(path));
    }

    /** The container a path ends in, with the last segment. */
    method ResolveParent(path: string) returns (parent: Option<Val>, last: string)
      requires Valid()
      ensures var segs := Split(path);
              && last == segs[|segs| - 1]
              && (parent.Some? <==> Parent(tree, segs).Some?)
              && (parent.Some? ==> TreeOf(parent.value) == Parent(tree, segs).value)
    {
      var segs := Split(path);
      parent := Walk(segs[..|segs| - 1]);
      last := segs[|segs| - 1];
    }

    /** A child other than the ones `changed` is as it was. */
    twostate lemma Untouched(new changed: set<Container>, v: Val)
      requires old(allocated(v)) && old(Holds(v)) && old(NodesOf(v)) !! changed
      requires unchanged(old(repr) - changed - {this})
      requires this in old(repr)
      requires old(repr) <= repr
      ensures Holds(v)
      ensures TreeOf(v) == old(TreeOf(v))
      ensures NodesOf(v) == old(NodesOf(v))
    {
    }

    /** A map whose only changed child is the one at `seg` is well formed again. */
    twostate lemma FieldReplaced(new changed: set<Container>, seg: string, new v: Val)
      requires this in old(repr) && this in repr && old(isMap) && isMap
      requires old(ValidFields())
      requires unchanged(old(repr) - changed - {this})
      requires old(repr) <= repr
      requires fields == old(fields)[seg := v]
      requires Holds(v)
      requires tree == Obj(old(tree).fields[seg := TreeOf(v)])
      requires NodesOf(v) <= changed
      requires forall k :: k in old(fields) && k != seg ==> old(NodesOf(fields[k])) !! changed
      ensures ValidFields()
    {
      forall k | k in old(fields) && k != seg
        ensures Holds(fields[k])
        ensures TreeOf(fields[k]) == tree.fields[k]
        ensures NodesOf(fields[k]) == old(NodesOf(fields[k]))
      {
        Untouched(changed, old(fields)[k]);
      }
    }

    /** Likewise for a slice whose only changed element is the one at `i`. */
    twostate lemma ItemReplaced(new changed: set<Container>, i: nat, new v: Val)
      requires this in old(repr) && this in repr && !old(isMap) && !isMap && i < |old(items)|
      requires old(ValidItems())
      requires unchanged(old(repr) - changed - {this})
      requires old(repr) <= repr
      requires items == old(items)[i := v]
      requires Holds(v)
      requires tree == Arr(old(tree).items[i := TreeOf(v)])
      requires NodesOf(v) <= changed
      requires forall k :: 0 <= k < |old(items)| && k != i ==> old(NodesOf(items[k])) !! changed
      ensures ValidItems()
    {
      forall k | 0 <= k < |items| && k != i
        ensures Holds(items[k])
        ensures TreeOf(items[k]) == tree.items[k]
        ensures NodesOf(items[k]) == old(NodesOf(items[k]))
      {
        Untouched(changed, old(items)[k]);
      }
    }

    /** What the other children of a map consist of is neither part of `v` nor of the child at `seg`. */
    lemma OtherFields(seg: string, v: Val)
      requires Valid() && isMap && NodesOf(v) !! repr
      ensures forall k :: k in fields && k != seg ==> NodesOf(fields[k]) !! NodesOf(v)
      ensures seg in fields ==> forall k :: k in fields && k != seg ==> NodesOf(fields[k]) !! NodesOf(fields[seg]) + NodesOf(v)
    {
      forall k | k in fields
        ensures NodesOf(fields[k]) <= repr
      {
        assert Holds(fields[k]);
      }
    }

    lemma OtherItems(i: nat, v: Val)
      requires Valid() && !isMap && NodesOf(v) !! repr && i < |items|
      ensures forall k :: 0 <= k < |items| && k != i ==> NodesOf(items[k]) !! NodesOf(v)
      ensures forall k :: 0 <= k < |items| && k != i ==> NodesOf(items[k]) !! NodesOf(items[i]) + NodesOf(v)
    {
      forall k | 0 <= k < |items|
        ensures NodesOf(items[k]) <= repr
      {
        assert Holds(items[k]);
      }
    }

    method StoreField(seg: string, v: Val)
      requires Valid() && isMap && Fresh(v)
      modifies this
      ensures Valid() && isMap
      ensures Some(tree) == Put(old(tree), seg, TreeOf(v))
      ensures repr == old(repr) + NodesOf(v)
    {
      OtherFields(seg, v);
      fields := fields[seg := v];
      tree := Obj(tree.fields[seg := TreeOf(v)]);
      repr := repr + NodesOf(v);
      FieldReplaced(NodesOf(v), seg, v);
    }

    method StoreItem(i: nat, v: Val)
      requires Valid() && !isMap && Fresh(v) && i < |items|
      modifies this
      ensures Valid() && !isMap
      ensures old(tree).Arr? && i < |old(tree).items| && tree == Arr(old(tree).items[i := TreeOf(v)])
      ensures repr == old(repr) + NodesOf(v)
    {
      OtherItems(i, v);
      items := items[i := v];
      tree := Arr(tree.items[i := TreeOf(v)]);
      repr := repr + NodesOf(v);
      ItemReplaced(NodesOf(v), i, v);
    }

    /** Store `v` here, in place of what was there. */
    method Store(seg: string, v: Val) returns (ok: bool)
      requires Valid() && Fresh(v)
      modifies this
      ensures Valid()
      ensures ok <==> Put(old(tree), seg, TreeOf(v)).Some?
      ensures tree == Put(old(tree), seg, TreeOf(v)).GetOr(old(tree))
      ensures repr == if ok then old(repr) + NodesOf(v) else old(repr)
    {
      if isMap {
        StoreField(seg, v);
        return true;
      }
      var i := SliceIndex(seg, |items|);
      if i.None? {
        return false;
      }
      StoreItem(i.value, v);
      ok := true;
    }

    /** A map is well formed again once it records what became of the one child that changed. */
    twostate lemma FieldBelow(seg: string, new child: Container, new grown: set<Container>)
      requires old(Valid()) && old(isMap) && isMap && fields == old(fields)
      requires seg in fields && fields[seg] == Ref(child)
      requires grown !! old(repr) && repr == old(repr) + grown
      requires child.Valid() && old(child.repr) <= child.repr <= old(child.repr) + grown
      requires unchanged(old(repr) - old(child.repr) - {this})
      requires old(tree).Obj? && tree == Obj(old(tree).fields[seg := child.tree])
      ensures Valid()
    {
      assert old(Holds(fields[seg])) && old(NodesOf(fields[seg])) == old(child.repr);
      forall k | k in fields && k != seg
        ensures old(NodesOf(fields[k])) !! old(child.repr) + grown
      {
        assert old(Holds(fields[k]));
      }
      assert this !in child.repr && child.repr < repr;
      assert fields == old(fields)[seg := Ref(child)];
      FieldReplaced(old(child.repr) + grown, seg, Ref(child));
    }

    twostate lemma ItemBelow(i: nat, new child: Container, new grown: set<Container>)
      requires old(Valid()) && !old(isMap) && !isMap && items == old(items)
      requires i < |items| && items[i] == Ref(child)
      requires grown !! old(repr) && repr == old(repr) + grown
      requires child.Valid() && old(child.repr) <= child.repr <= old(child.repr) + grown
      requires unchanged(old(repr) - old(child.repr) - {this})
      requires old(tree).Arr? && i < |old(tree).items| && tree == Arr(old(tree).items[i := child.tree])
      ensures Valid()
    {
      assert old(Holds(items[i])) && old(NodesOf(items[i])) == old(child.repr);
      forall k | 0 <= k < |items| && k != i
        ensures old(NodesOf(items[k])) !! old(child.repr) + grown
      {
        assert old(Holds(items[k]));
      }
      assert this !in child.repr && child.repr < repr;
      assert items == old(items)[i := Ref(child)];
      ItemReplaced(old(child.repr) + grown, i, Ref(child));
    }

    /** Setting at `p` below this container stores `v` at the end of `p` and touches nothing else. */
    method SetPath(p: Path, v: Val) returns (ok: bool)
      requires Valid() && Fresh(v) && p != []
      modifies repr
      ensures Valid()
      ensures ok <==> SetAt(old(tree), p, TreeOf(v)).Some?
      ensures tree == SetAt(old(tree), p, TreeOf(v)).GetOr(old(tree))
      ensures old(repr) <= repr <= old(repr) + NodesOf(v)
      decreases |p|, 1
    {
      SetUnfolds(tree, p, TreeOf(v));
      if |p| == 1 {
        ok := Store(p[0], v);
        return;
      }
      var next := Child(p[0]);
      if next.None? || next.value.Leaf? {
        return false;
      }
      if isMap {
        ok := SetInField(p, next.value.node, v);
      } else {
        ok := SetInItem(p, SliceIndex(p[0], |items|).value, next.value.node, v);
      }
    }

    method SetInField(p: Path, child: Container, v: Val) returns (ok: bool)
      requires Valid() && Fresh(v) && |p| > 1
      requires isMap && p[0] in fields && fields[p[0]] == Ref(child)
      modifies repr
      ensures Valid()
      ensures ok <==> SetAt(old(tree), p, TreeOf(v)).Some?
      ensures tree == SetAt(old(tree), p, TreeOf(v)).GetOr(old(tree))
      ensures old(repr) <= repr <= old(repr) + NodesOf(v)
      decreases |p|, 0
    {
      hide SetAt;
      SetUnfolds(tree, p, TreeOf(v));
      assert Holds(fields[p[0]]);
      ok := child.SetPath(p[1..], v);
      repr := repr + NodesOf(v);
      tree := Obj(tree.fields[p[0] := child.tree]);
      FieldBelow(p[0], child, NodesOf(v));
    }

    method SetInItem(p: Path, i: nat, child: Container, v: Val) returns (ok: bool)
      requires Valid() && Fresh(v) && |p| > 1
      requires !isMap && SliceIndex(p[0], |items|) == Some(i) && items[i] == Ref(child)
      modifies repr
      ensures Valid()
      ensures ok <==> SetAt(old(tree), p, TreeOf(v)).Some?
      ensures tree == SetAt(old(tree), p, TreeOf(v)).GetOr(old(tree))
      ensures old(repr) <= repr <= old(repr) + NodesOf(v)
      decreases |p|, 0
    {
      hide SetAt;
      SetUnfolds(tree, p, TreeOf(v));
      assert Holds(items[i]);
      ok := child.SetPath(p[1..], v);
      repr := repr + NodesOf(v);
      tree := Arr(tree.items[i := child.tree]);
      ItemBelow(i, child, NodesOf(v));
    }

    method RemoveField(seg: string)
      requires Valid() && isMap && seg in fields
      modifies this
      ensures Valid() && isMap && repr == old(repr)
      ensures Some(tree) == Cut(old(tree), seg)
    {
      fields := fields - {seg};
      tree := Obj(tree.fields - {seg});
      forall k | k in fields
        ensures Holds(fields[k]) && TreeOf(fields[k]) == tree.fields[k]
        ensures NodesOf(fields[k]) == old(NodesOf(fields[k]))
      {
        Untouched({}, old(fields)[k]);
      }
    }

    /** The elements behind `i` move up by one, and the last position becomes null. */
    method RemoveItem(seg: string, i: nat)
      requires Valid() && !isMap && SliceIndex(seg, |items|) == Some(i)
      modifies this
      ensures Valid() && !isMap && repr == old(repr)
      ensures Some(tree) == Cut(old(tree), seg)
    {
      items := ShiftLeft(items, i);
      tree := Arr(tree.items[..i] + tree.items[i + 1..] + [Null]);
      ItemsShifted(i);
    }

    /** A slice whose elements behind `i` moved up by one is well formed. */
    twostate lemma ItemsShifted(i: nat)
      requires this in old(repr) && repr == old(repr) && old(ValidItems()) && unchanged(old(repr) - {this})
      requires i < |old(items)| == |items|
      requires forall l :: 0 <= l < i ==> items[l] == old(items)[l]
      requires forall l :: i <= l < |items| - 1 ==> items[l] == old(items)[l + 1]
      requires items[|items| - 1] == Leaf(Null)
      requires old(tree).Arr? && |old(tree).items| == |items|
      requires tree == Arr(old(tree).items[..i] + old(tree).items[i + 1..] + [Null])
      ensures ValidItems()
    {
      forall l | 0 <= l < |items| - 1
        ensures Holds(items[l]) && TreeOf(items[l]) == tree.items[l]
        ensures NodesOf(items[l]) == old(NodesOf(items[if l < i then l else l + 1]))
      {
        var k := if l < i then l else l + 1;
        assert items[l] == old(items)[k] && tree.items[l] == old(tree).items[k];
        Untouched({}, old(items)[k]);
      }
      ghost var last := items[|items| - 1];
      assert Holds(last) && TreeOf(last) == tree.items[|items| - 1] && NodesOf(last) == {};
      forall l, m | 0 <= l < m < |items|
        ensures NodesOf(items[l]) !! NodesOf(items[m])
      {
        if m < |items| - 1 {
          var j, k := if l < i then l else l + 1, if m < i then m else m + 1;
          assert old(NodesOf(items[j])) !! old(NodesOf(items[k]));
        }
      }
    }

    method DeletePath(p: Path) returns (ok: bool)
      requires Valid() && p != []
      modifies repr
      ensures Valid() && repr == old(repr)
      ensures ok <==> DeleteAt(old(tree), p).Some?
      ensures tree == DeleteAt(old(tree), p).GetOr(old(tree))
      decreases |p|, 1
    {
      DeleteUnfolds(tree, p);
      var next := Child(p[0]);
      if next.None? {
        return false;
      }
      if |p| == 1 {
        if isMap {
          RemoveField(p[0]);
        } else {
          RemoveItem(p[0], SliceIndex(p[0], |items|).value);
        }
        return true;
      }
      if next.value.Leaf? {
        return false;
      }
      if isMap {
        ok := DeleteInField(p, next.value.node);
      } else {
        ok := DeleteInItem(p, SliceIndex(p[0], |items|).value, next.value.node);
      }
    }

    method DeleteInField(p: Path, child: Container) returns (ok: bool)
      requires Valid() && |p| > 1
      requires isMap && p[0] in fields && fields[p[0]] == Ref(child)
      modifies repr
      ensures Valid() && repr == old(repr)
      ensures ok <==> DeleteAt(old(tree), p).Some?
      ensures tree == DeleteAt(old(tree), p).GetOr(old(tree))
      decreases |p|, 0
    {
      hide DeleteAt;
      DeleteUnfolds(tree, p);
      assert Holds(fields[p[0]]);
      ok := child.DeletePath(p[1..]);
      tree := Obj(tree.fields[p[0] := child.tree]);
      FieldBelow(p[0], child, {});
    }

    method DeleteInItem(p: Path, i: nat, child: Container) returns (ok: bool)
      requires Valid() && |p| > 1
      requires !isMap && SliceIndex(p[0], |items|) == Some(i) && items[i] == Ref(child)
      modifies repr
      ensures Valid() && repr == old(repr)
      ensures ok <==> DeleteAt(old(tree), p).Some?
      ensures tree == DeleteAt(old(tree), p).GetOr(old(tree))
      decreases |p|, 0
    {
      hide DeleteAt;
      DeleteUnfolds(tree, p);
      assert Holds(items[i]);
      ok := child.DeletePath(p[1..]);
      tree := Arr(tree.items[i := child.tree]);
      ItemBelow(i, child, {});
    }
  }

  /** What is behind `i` moves up by one, and the last position becomes null. */
  method ShiftLeft(items: seq<Val>, i: nat) returns (out: seq<Val>)
    requires i < |items|
    ensures |out| == |items|
    ensures forall l :: 0 <= l < i ==> out[l] == items[l]
    ensures forall l :: i <= l < |out| - 1 ==> out[l] == items[l + 1]
    ensures out[|out| - 1] == Leaf(Null)
  {
    out := items;
    for k := i to |items| - 1
      invariant |out| == |items|
      invariant forall l :: 0 <= l < i ==> out[l] == items[l]
      invariant forall l :: i <= l < k ==> out[l] == items[l + 1]
      invariant forall l :: k <= l < |items| ==> out[l] == items[l]
    {
      out := out[k := out[k + 1]];
    }
    out := out[|out| - 1 := Leaf(Null)];
  }

  /** One step of a set at a path with more than one segment. */
  lemma {:induction false} SetUnfolds(j: Json, p: Path, v: Json)
    requires p != []
    ensures |p| == 1 ==> SetAt(j, p, v) == Put(j, p[0], v)
    ensures |p| > 1 && Descend(j, p[0]).None? ==> SetAt(j, p, v) == None
    ensures |p| > 1 && Descend(j, p[0]).Some? ==>
              && var next := Descend(j, p[0]).value;
              && (Scalar(next) ==> SetAt(j, p, v) == None)
              && var below := SetAt(next, p[1..], v);
              SetAt(j, p, v) == if below.None? then None else Put(j, p[0], below.value)
  {
  }

  lemma {:induction false} DeleteUnfolds(j: Json, p: Path)
    requires p != []
    ensures |p| == 1 ==> DeleteAt(j, p) == Cut(j, p[0])
    ensures Descend(j, p[0]).None? ==> DeleteAt(j, p) == None
    ensures |p| > 1 && Descend(j, p[0]).Some? ==>
              && var next := Descend(j, p[0]).value;
              && (Scalar(next) ==> DeleteAt(j, p) == None)
              && var below := DeleteAt(next, p[1..]);
              DeleteAt(j, p) == if below.None? then None else Put(j, p[0], below.value)
  {
  }
}
