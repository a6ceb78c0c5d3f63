/**
 `RadixNode` and `RadixTree` of `aiomisc/service/dns/tree.py`: a heap of nodes linked by their
 `children` dictionaries.  The ghost field `nodes` names every node by the path that leads to it,
 which turns "the heap is a tree" into flat statements; the ghost field `inserted` remembers every
 key ever inserted.
 */
module DnsTree {
  import opened Basics

  /** A path from the root, seen from its end. */
  datatype Path<L> = Root | Sub(parent: Path<L>, part: L)

  function PathOf<L>(key: seq<L>): (r: Path<L>)
    ensures key == [] <==> r.Root?
  {
    if key == [] then Root else Sub(PathOf(key[..|key| - 1]), key[|key| - 1])
  }

  lemma {:induction false} PathOfInjective<L>(a: seq<L>, b: seq<L>)
    requires PathOf(a) == PathOf(b)
    ensures a == b
  {
    if a != [] {
      PathOfInjective(a[..|a| - 1], b[..|b| - 1]);
      assert a == a[..|a| - 1] + [a[|a| - 1]];
      assert b == b[..|b| - 1] + [b[|b| - 1]];
    }
  }

  lemma PathOfLonger<L>(key: seq<L>, i: nat)
    requires i < |key|
    ensures PathOf(key[..i + 1]) == Sub(PathOf(key[..i]), key[i])
  {
    assert key[..i + 1][..i] == key[..i];
  }

  lemma OnlyKeyOf<L(!new)>(key: seq<L>)
    ensures forall k: seq<L> :: PathOf(k) == PathOf(key) ==> k == key
  {
    forall k: seq<L> | PathOf(k) == PathOf(key)
      ensures k == key
    {
      PathOfInjective(k, key);
    }
  }

  /** The paths of the prefixes of `key` up to length `n`. */
  ghost function PathsTo<L>(key: seq<L>, n: nat): set<Path<L>>
    requires n <= |key|
  {
    if n == 0 then {Root} else PathsTo(key, n - 1) + {PathOf(key[..n])}
  }

  lemma {:induction false} PathsToAre<L>(key: seq<L>, n: nat, k: seq<L>)
    requires n <= |key|
    ensures PathOf(k) in PathsTo(key, n) <==> k <= key[..n]
  {
    if n > 0 {
      PathsToAre(key, n - 1, k);
      if PathOf(k) == PathOf(key[..n]) {
        PathOfInjective(k, key[..n]);
      }
      assert k <= key[..n] <==> k <= key[..n - 1] || k == key[..n];
    }
  }

  lemma SpelledAfter<L(!new)>(keys: set<seq<L>>, key: seq<L>)
    ensures forall k :: Spelled(keys + {key}, k) <==> Spelled(keys, k) || PathOf(k) in PathsTo(key, |key|)
  {
    forall k: seq<L>
      ensures Spelled(keys + {key}, k) <==> Spelled(keys, k) || PathOf(k) in PathsTo(key, |key|)
    {
      PathsToAre(key, |key|, k);
      assert key[..|key|] == key;
      assert key in keys + {key};
    }
  }

  /** `key` is a prefix of some key in `keys`. */
  ghost predicate Spelled<L(!new)>(keys: set<seq<L>>, key: seq<L>) {
    key == [] || exists k :: k in keys && key <= k
  }

  lemma SpelledShorter<L(!new)>(keys: set<seq<L>>, key: seq<L>, i: nat, m: nat)
    requires i <= m <= |key| && Spelled(keys, key[..m])
    ensures Spelled(keys, key[..i])
  {
    if key[..m] != [] {
      var k :| k in keys && key[..m] <= k;
      assert key[..i] <= k;
    }
  }

  class RadixNode<L(==), T> {
    var children: map<L, RadixNode<L, T>>
    var value: Option<T>
    ghost const path: Path<L>

    constructor (ghost path: Path<L>)
      ensures children == map[] && value == None && this.path == path
    {
      children, value := map[], None;
      this.path := path;
    }
  }

  class RadixTree<L(==, !new), T> {
    var root: RadixNode<L, T>
    ghost var nodes: map<Path<L>, RadixNode<L, T>>
    ghost var inserted: set<seq<L>>

    /** Every path has a node of its own and hangs under its parent, and every edge leads to a
        path: the heap is a tree. */
    ghost predicate Tree()
      reads this`root, this`nodes, nodes.Values`children
    {
      && Root in nodes && nodes[Root] == root
      && (forall p :: p in nodes ==> nodes[p].path == p)
      && (forall p :: p in nodes && p.Sub? ==> p.parent in nodes && p.part in nodes[p.parent].children)
      && (forall p, x :: p in nodes && x in nodes[p].children ==>
            Sub(p, x) in nodes && nodes[p].children[x] == nodes[Sub(p, x)])
    }

    ghost predicate HasPath(key: seq<L>)
      reads this`nodes
    {
      PathOf(key) in nodes
    }

    /** The heap is a tree, and its paths are the prefixes of the keys inserted so far. */
    ghost predicate Valid()
      reads this, nodes.Values`children
    {
      Tree() && forall key :: HasPath(key) <==> Spelled(inserted, key)
    }

    /** The flat map the tree stands for. */
    ghost function Lookup(key: seq<L>): Option<T>
      reads this`nodes, nodes.Values`value
    {
      if HasPath(key) then nodes[PathOf(key)].value else None
    }

    constructor ()
      ensures Valid() && fresh(nodes.Values) && inserted == {}
      ensures forall key :: Lookup(key) == None
    {
      var node := new RadixNode(Root);
      root := node;
      nodes, inserted := map[Root := node], {};
    }

    /** The child of a node on a path is on the path one part longer. */
    lemma StepDown(key: seq<L>, i: nat, node: RadixNode<L, T>)
      requires Tree() && i < |key| && HasPath(key[..i]) && nodes[PathOf(key[..i])] == node
      requires key[i] in node.children
      ensures HasPath(key[..i + 1]) && nodes[PathOf(key[..i + 1])] == node.children[key[i]]
    {
      PathOfLonger(key, i);
    }

    lemma AtRoot()
      requires Valid()
      ensures Tree() && HasPath([]) && nodes[PathOf([])] == root
    {
    }

    /** A new node is hung under `node`. */
    method AddChild(node: RadixNode<L, T>, ghost path: Path<L>, part: L) returns (child: RadixNode<L, T>)
      requires Tree() && path in nodes && nodes[path] == node && part !in node.children
      modifies this`nodes, node`children
      ensures Tree() && fresh(child) && child.value.None? && Sub(path, part) !in old(nodes)
      ensures nodes == old(nodes)[Sub(path, part) := child]
    {
      child := new RadixNode(Sub(path, part));
      node.children := node.children[part := child];
      nodes := nodes[Sub(path, part) := child];
      forall p, x | p in nodes && x in nodes[p].children
        ensures Sub(p, x) in nodes && nodes[p].children[x] == nodes[Sub(p, x)]
      {
        if (p, x) != (path, part) {
          assert p in old(nodes) && x in old(nodes[p].children);
        }
      }
    }

    /** One step of the loop of `insert`: the child for the next part, made if it is missing. */
    method Child(node: RadixNode<L, T>, ghost key: seq<L>, ghost i: nat, part: L) returns (child: RadixNode<L, T>)
      requires Tree() && i < |key| && part == key[i] && HasPath(key[..i]) && nodes[PathOf(key[..i])] == node
      modifies this`nodes, node`children
      ensures Tree() && HasPath(key[..i + 1]) && nodes[PathOf(key[..i + 1])] == child
      ensures forall p :: p in nodes ==> if p in old(nodes) then nodes[p] == old(nodes)[p] else fresh(nodes[p])
      ensures nodes.Keys == old(nodes.Keys) + {PathOf(key[..i + 1])}
      ensures forall k :: Lookup(k) == old(Lookup(k))
    {
      hide Tree;
      PathOfLonger(key, i);
      if part !in node.children {
        child := AddChild(node, PathOf(key[..i]), part);
        OnlyKeyOf(key[..i + 1]);
      } else {
        StepDown(key, i, node);
        child := node.children[part];
      }
    }

    /** The loop of `insert`: afterwards `key` is a path, and no value has changed. */
    method Descend(key: seq<L>) returns (node: RadixNode<L, T>)
      requires Tree()
      modifies this`nodes, nodes.Values
      ensures Tree() && HasPath(key) && nodes[PathOf(key)] == node
      ensures forall p :: p in nodes ==> if p in old(nodes) then nodes[p] == old(nodes)[p] else fresh(nodes[p])
      ensures nodes.Keys == old(nodes.Keys) + PathsTo(key, |key|)
      ensures forall k :: Lookup(k) == old(Lookup(k))
    {
      node := root;
      for i := 0 to |key|
        invariant Tree()
        invariant forall p :: p in nodes ==> if p in old(nodes) then nodes[p] == old(nodes)[p] else fresh(nodes[p])
        invariant HasPath(key[..i]) && nodes[PathOf(key[..i])] == node
        invariant nodes.Keys == old(nodes.Keys) + PathsTo(key, i)
        invariant forall k :: Lookup(k) == old(Lookup(k))
      {
        node := Child(node, key, i, key[i]);
      }
      assert key[..|key|] == key;
    }

    /** After the walk the paths are the prefixes of one more key. */
    method Reserve(key: seq<L>) returns (node: RadixNode<L, T>)
      requires Valid()
      modifies this`nodes, this`inserted, nodes.Values
      ensures Valid() && inserted == old(inserted) + {key}
      ensures HasPath(key) && nodes[PathOf(key)] == node
      ensures forall p :: p in nodes ==> if p in old(nodes) then nodes[p] == old(nodes)[p] else fresh(nodes[p])
      ensures forall k :: Lookup(k) == old(Lookup(k))
    {
      node := Descend(key);
      SpelledAfter(inserted, key);
      inserted := inserted + {key};
    }

    method SetValue(ghost key: seq<L>, node: RadixNode<L, T>, value: Option<T>)
      requires Valid() && HasPath(key) && nodes[PathOf(key)] == node
      modifies node`value
      ensures Valid()
      ensures forall k :: Lookup(k) == if k == key then value else old(Lookup(k))
    {
      OnlyKeyOf(key);
      node.value := value;
    }

    /** `insert`: the last node of the walk gets the value. */
    method Insert(key: seq<L>, value: Option<T>)
      requires Valid()
      modifies this`nodes, this`inserted, nodes.Values
      ensures Valid() && inserted == old(inserted) + {key}
      ensures forall p :: p in nodes ==> if p in old(nodes) then nodes[p] == old(nodes)[p] else fresh(nodes[p])
      ensures forall k :: Lookup(k) == if k == key then value else old(Lookup(k))
    {
      var node := Reserve(key);
      SetValue(key, node, value);
    }

    /** `search`. */
    method Search(key: seq<L>) returns (r: Option<T>)
      requires Valid()
      ensures r == Lookup(key)
    {
      var node := root;
      for i := 0 to |key|
        invariant HasPath(key[..i]) && nodes[PathOf(key[..i])] == node
      {
        PathOfLonger(key, i);
        if key[i] !in node.children {
          NoLongerPath(key, i);
          assert key[..|key|] == key;
          return None;
        }
        node := node.children[key[i]];
      }
      assert key[..|key|] == key;
      return node.value;
    }

    lemma NoLongerPath(key: seq<L>, i: nat)
      requires Valid() && i < |key| && HasPath(key[..i]) && key[i] !in nodes[PathOf(key[..i])].children
      ensures forall m :: i < m <= |key| ==> !HasPath(key[..m])
    {
      PathOfLonger(key, i);
      assert !HasPath(key[..i + 1]);
      forall m | i < m <= |key|
        ensures !HasPath(key[..m])
      {
        if HasPath(key[..m]) {
          SpelledShorter(inserted, key, i + 1, m);
        }
      }
    }

    /** `n` is the length of the longest prefix of `key` that is a path. */
    ghost predicate DeepestPath(key: seq<L>, n: nat)
      reads this`nodes
    {
      n <= |key| && HasPath(key[..n]) && forall m :: n < m <= |key| ==> !HasPath(key[..m])
    }

    lemma {:induction false} PathDepth(key: seq<L>) returns (n: nat)
      requires Valid()
      ensures DeepestPath(key, n)
    {
      n := |key|;
      while !HasPath(key[..n])
        decreases n
        invariant n <= |key| && forall m :: n < m <= |key| ==> !HasPath(key[..m])
      {
        assert key[..0] == [];
        n := n - 1;
      }
    }

    lemma SameDepth(key: seq<L>, m: nat, n: nat)
      requires DeepestPath(key, m) && DeepestPath(key, n)
      ensures m == n
    {
    }

    /** `n` is the length of the longest prefix of `key` that holds a value. */
    ghost predicate DeepestValue(key: seq<L>, n: nat)
      reads this`nodes, nodes.Values`value
    {
      n <= |key| && Lookup(key[..n]).Some? && forall m :: n < m <= |key| ==> Lookup(key[..m]).None?
    }

    lemma {:induction false} ValueDepth(key: seq<L>) returns (some: bool, n: nat)
      ensures some ==> DeepestValue(key, n)
      ensures !some ==> forall m :: 0 <= m <= |key| ==> Lookup(key[..m]).None?
    {
      n := |key|;
      while n > 0 && Lookup(key[..n]).None?
        invariant n <= |key| && forall m :: n < m <= |key| ==> Lookup(key[..m]).None?
      {
        n := n - 1;
      }
      some := Lookup(key[..n]).Some?;
    }

    /** The loop of `find_prefix`: how far the key can be followed, and the last value on the way. */
    method Follow(key: seq<L>) returns (i: nat, value: Option<T>, ghost deepest: nat)
      requires Valid()
      ensures deepest <= i <= |key| && DeepestPath(key, i)
      ensures value == Lookup(key[..deepest]) && (value.None? ==> deepest == 0)
      ensures forall m :: deepest < m <= i ==> Lookup(key[..m]).None?
    {
      hide Valid, Tree, PathOf;
      AtRoot();
      var node := root;
      i, deepest, value := 0, 0, node.value;
      assert key[..0] == [];
      while i < |key| && key[i] in node.children
        invariant deepest <= i <= |key|
        invariant HasPath(key[..i]) && nodes[PathOf(key[..i])] == node
        invariant value == Lookup(key[..deepest]) && (value.None? ==> deepest == 0)
        invariant forall m :: deepest < m <= i ==> Lookup(key[..m]).None?
      {
        StepDown(key, i, node);
        node := node.children[key[i]];
        i := i + 1;
        if node.value.Some? {
          value := node.value;
          deepest := i;
        }
      }
      if i < |key| {
        NoLongerPath(key, i);
      }
    }

    /** `find_prefix`: the deepest path, with the deepest value; they may belong to different nodes. */
    method FindPrefix(key: seq<L>) returns (r: Option<(seq<L>, T)>)
      requires Valid()
      ensures r.None? <==> forall m :: 0 <= m <= |key| ==> Lookup(key[..m]).None?
      ensures r.Some? ==> r.value.0 <= key && DeepestPath(key, |r.value.0|)
      ensures r.Some? ==> exists m: nat :: DeepestValue(key, m) && r.value.1 == Lookup(key[..m]).value
    {
      hide Valid;
      var i, value, deepest := Follow(key);
      if value.None? {
        return None;
      }
      assert DeepestValue(key, deepest);
      return Some((key[..i], value.value));
    }
  }
}
