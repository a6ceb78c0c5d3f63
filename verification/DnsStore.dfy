/**
 `DNSStore` of `aiomisc/service/dns/store.py`: zones in a radix tree keyed by reversed labels, and the
 lookup of the zone that answers a query, compared with the nearest enclosing zone of section 4.3.2
 of RFC 1034.
 */
module DnsStore {
  import opened Basics
  import opened DnsNames
  import opened DnsTree
  import opened DnsZone

  /** The zone is the root, or the name itself, or a suffix of the name at a label boundary. */
  predicate Encloses(zone: string, name: string) {
    Strip(zone) == "" || Strip(zone) == Strip(name) || EndsWith(Strip(name), "." + Strip(zone))
  }

  /** The tuple of an enclosing zone is a prefix of the name's tuple, except for the root zone. */
  lemma EnclosesMeansPrefix(zone: string, name: string)
    ensures ReverseTuple(zone) <= ReverseTuple(name) <==>
            Encloses(zone, name) && (Strip(zone) == "" ==> Strip(name) == "")
  {
    PrefixMeansSuffix(zone, name);
  }

  ghost predicate FiledUnder(zone: DNSZone, key: seq<string>) {
    key == ReverseTuple(zone.name)
  }

  /** What a query for this name is answered if this zone answers it. */
  ghost function Answer(zone: Option<DNSZone>, name: string, rtype: int): set<DNSRecord>
    reads if zone.Some? then {zone.value} else {}
  {
    match zone
    case None => {}
    case Some(z) => Stored(z.records, (Dotted(name), rtype))
  }

  lemma PrefixIsSlice<T>(p: seq<T>, s: seq<T>)
    requires p <= s
    ensures p == s[..|p|]
  {
  }

  /** The zone filed under `key` after these zones were inserted in turn. */
  ghost function LastFiled(built: seq<DNSZone>, key: seq<string>): (r: Option<DNSZone>)
    ensures r.Some? ==> FiledUnder(r.value, key)
  {
    if built == [] then None
    else if FiledUnder(built[|built| - 1], key) then Some(built[|built| - 1])
    else LastFiled(built[..|built| - 1], key)
  }

  /** The zone is what the entry describes. */
  ghost predicate BuiltFrom(zone: DNSZone, entry: (string, seq<DNSRecord>))
    reads zone
  {
    zone.Valid() && zone.name == Dotted(entry.0) && zone.records == AddedAll(entry.1)
  }

  /** Every record of the entry belongs to the zone of its name. */
  predicate EntryOk(entry: (string, seq<DNSRecord>)) {
    forall i :: 0 <= i < |entry.1| ==> EndsWith(entry.1[i].name, Dotted(entry.0))
  }

  /** `DNSZone(name, *records)`; no zone where the source raises ValueError. */
  method BuildZone(entry: (string, seq<DNSRecord>)) returns (zone: Option<DNSZone>)
    ensures zone.Some? <==> EntryOk(entry)
    ensures zone.Some? ==> fresh(zone.value) && BuiltFrom(zone.value, entry)
  {
    var z := new DNSZone(entry.0);
    var ok := z.Replace(entry.1);
    zone := if ok then Some(z) else None;
  }

  lemma LastFiledAppend(built: seq<DNSZone>, zone: DNSZone, key: seq<string>)
    ensures LastFiled(built + [zone], key) == if FiledUnder(zone, key) then Some(zone) else LastFiled(built, key)
  {
    assert (built + [zone])[..|built|] == built;
  }

  /** The tree is what inserting these zones in turn makes of an empty one. */
  ghost predicate Mirrors(tree: RadixTree<string, DNSZone>, built: seq<DNSZone>)
    reads tree, tree.nodes.Values
  {
    tree.Valid() && forall key :: tree.Lookup(key) == LastFiled(built, key)
  }

  method InsertZone(tree: RadixTree<string, DNSZone>, zone: DNSZone, ghost built: seq<DNSZone>)
    requires Mirrors(tree, built)
    modifies tree`nodes, tree`inserted, tree.nodes.Values
    ensures Mirrors(tree, built + [zone]) && fresh(tree.nodes.Values - old(tree.nodes.Values))
  {
    forall key
      ensures LastFiled(built + [zone], key) == if FiledUnder(zone, key) then Some(zone) else LastFiled(built, key)
    {
      LastFiledAppend(built, zone, key);
    }
    hide LastFiled, ReverseTuple;
    tree.Insert(ReverseTuple(zone.name), Some(zone));
  }

  ghost predicate AllBuilt(built: seq<DNSZone>, data: seq<(string, seq<DNSRecord>)>)
    reads built
  {
    |built| <= |data| && forall i :: 0 <= i < |built| ==> BuiltFrom(built[i], data[i])
  }

  ghost predicate InStep(tree: RadixTree<string, DNSZone>, built: seq<DNSZone>, data: seq<(string, seq<DNSRecord>)>)
    reads tree, tree.nodes.Values, built
  {
    AllBuilt(built, data) && Mirrors(tree, built) && forall i :: 0 <= i < |built| ==> EntryOk(data[i])
  }

  /** One turn of the loop of `replace`; no zone where the source raises ValueError. */
  method AddEntry(tree: RadixTree<string, DNSZone>, data: seq<(string, seq<DNSRecord>)>, i: nat,
                  ghost built: seq<DNSZone>)
    returns (zone: Option<DNSZone>)
    requires i < |data| && |built| == i && InStep(tree, built, data)
    modifies tree`nodes, tree`inserted, tree.nodes.Values
    ensures zone.Some? <==> EntryOk(data[i])
    ensures fresh(tree.nodes.Values - old(tree.nodes.Values))
    ensures InStep(tree, if zone.Some? then built + [zone.value] else built, data)
  {
    hide EntryOk, BuiltFrom, Mirrors;
    zone := BuildZone(data[i]);
    if zone.Some? {
      InsertZone(tree, zone.value, built);
    }
  }

  /** The loop of `replace`: a new tree with a new zone for every entry. */
  method BuildTree(data: seq<(string, seq<DNSRecord>)>)
    returns (ok: bool, tree: RadixTree<string, DNSZone>, ghost built: seq<DNSZone>)
    ensures ok <==> forall i :: 0 <= i < |data| ==> EntryOk(data[i])
    ensures fresh(tree) && fresh(tree.nodes.Values) && InStep(tree, built, data)
    ensures ok ==> |built| == |data|
  {
    tree := new RadixTree<string, DNSZone>();
    built := [];
    assert InStep(tree, built, data);
    for i := 0 to |data|
      invariant fresh(tree) && fresh(tree.nodes.Values)
      invariant |built| == i && InStep(tree, built, data)
    {
      hide InStep;
      var zone := AddEntry(tree, data, i, built);
      if zone.None? {
        return false, tree, built;
      }
      built := built + [zone.value];
    }
    return true, tree, built;
  }

  class DNSStore {
    var zones: RadixTree<string, DNSZone>

    /** Every zone is filed under the tuple of its own name. */
    ghost predicate Named()
      reads this, zones, zones.nodes.Values
    {
      forall key :: zones.Lookup(key).Some? ==> FiledUnder(zones.Lookup(key).value, key)
    }

    ghost predicate Valid()
      reads this, zones, zones.nodes.Values
    {
      zones.Valid() && Named()
    }

    constructor ()
      ensures Valid() && fresh(zones) && fresh(zones.nodes.Values) && zones.inserted == {}
      ensures forall key :: zones.Lookup(key).None?
    {
      hide ReverseTuple, RadixTree.Lookup, RadixTree.Tree;
      zones := new RadixTree();
    }

    /** One insert into the tree of zones. */
    method Put(key: seq<string>, zone: Option<DNSZone>)
      requires Valid() && (zone.Some? ==> FiledUnder(zone.value, key))
      modifies zones`nodes, zones`inserted, zones.nodes.Values
      ensures Valid() && zones.inserted == old(zones.inserted) + {key}
      ensures forall k :: zones.Lookup(k) == if k == key then zone else old(zones.Lookup(k))
      ensures fresh(zones.nodes.Values - old(zones.nodes.Values))
    {
      zones.Insert(key, zone);
    }

    /** Search, then insert or clear if the search went as wanted. */
    method PutIf(key: seq<string>, zone: Option<DNSZone>) returns (ok: bool)
      requires Valid() && (zone.Some? ==> FiledUnder(zone.value, key))
      modifies zones`nodes, zones`inserted, zones.nodes.Values
      ensures Valid() && (ok <==> old(zones.Lookup(key)).Some? != zone.Some?)
      ensures forall k :: zones.Lookup(k) == if ok && k == key then zone else old(zones.Lookup(k))
      ensures zones.inserted == old(zones.inserted) + if ok then {key} else {}
      ensures fresh(zones.nodes.Values - old(zones.nodes.Values))
    {
      var found := zones.Search(key);
      ok := found.Some? != zone.Some?;
      if ok {
        Put(key, zone);
      }
    }

    /** `add_zone`; the result is false where the source raises ValueError. */
    method AddZone(zone: DNSZone) returns (ok: bool)
      requires Valid()
      modifies zones`nodes, zones`inserted, zones.nodes.Values
      ensures Valid() && (ok <==> old(zones.Lookup(ReverseTuple(zone.name))).None?)
      ensures forall k :: zones.Lookup(k) ==
                if ok && k == ReverseTuple(zone.name) then Some(zone) else old(zones.Lookup(k))
      ensures zones.inserted == old(zones.inserted) + if ok then {ReverseTuple(zone.name)} else {}
      ensures fresh(zones.nodes.Values - old(zones.nodes.Values))
    {
      ok := PutIf(ReverseTuple(zone.name), Some(zone));
    }

    /** `remove_zone`: the value goes, the nodes of the path stay. */
    method RemoveZone(name: string) returns (ok: bool)
      requires Valid()
      modifies zones`nodes, zones`inserted, zones.nodes.Values
      ensures Valid() && (ok <==> old(zones.Lookup(ReverseTuple(name))).Some?)
      ensures forall k :: zones.Lookup(k) == if k == ReverseTuple(name) then None else old(zones.Lookup(k))
      ensures fresh(zones.nodes.Values - old(zones.nodes.Values))
    {
      ok := PutIf(ReverseTuple(name), None);
    }

    method GetZone(name: string) returns (r: Option<DNSZone>)
      requires Valid()
      ensures r == zones.Lookup(ReverseTuple(name))
    {
      r := zones.Search(ReverseTuple(name));
    }

    /** The lookup of `query`: the zone at the deepest path of the tree that the key follows. */
    method ZoneFor(key: seq<string>) returns (zone: Option<DNSZone>, ghost n: nat)
      requires Valid()
      ensures zones.DeepestPath(key, n) && zone == zones.Lookup(key[..n])
    {
      n := zones.PathDepth(key);
      var found := zones.FindPrefix(key);
      if found.None? {
        return None, n;
      }
      zones.SameDepth(key, n, |found.value.0|);
      assert found.value.0 == key[..n];
      if found.value.0 == [] {
        NoZoneAtTheTop();
        return None, n;
      }
      zone := zones.Search(found.value.0);
    }

    lemma NoZoneAtTheTop()
      requires Named()
      ensures zones.Lookup([]).None?
    {
      assert zones.Lookup([]).Some? ==> FiledUnder(zones.Lookup([]).value, []);
    }

    /** What `query` does: the records of the zone at the deepest path, and none if that node holds none. */
    method RecordsAt(name: string, rtype: int) returns (answer: set<DNSRecord>, ghost n: nat)
      requires Valid()
      requires forall key :: zones.Lookup(key).Some? ==> zones.Lookup(key).value.Valid()
      ensures zones.DeepestPath(ReverseTuple(name), n)
      ensures answer == Answer(zones.Lookup(ReverseTuple(name)[..n]), name, rtype)
    {
      hide ReverseTuple;
      TupleOfDotted(name);
      var zone: Option<DNSZone>;
      zone, n := ZoneFor(ReverseTuple(Dotted(name)));
      answer := {};
      if zone.Some? {
        answer := zone.value.GetRecords(Dotted(name), rtype);
      }
    }

    /** `query`: the answer of the zone at the deepest path.  Where that node holds a zone, this is the
        answer of the nearest enclosing zone; where no zone encloses the name, it is empty. */
    method Query(name: string, rtype: int) returns (answer: set<DNSRecord>)
      requires Valid()
      requires forall key :: zones.Lookup(key).Some? ==> zones.Lookup(key).value.Valid()
      ensures exists n: nat :: zones.DeepestPath(ReverseTuple(name), n)
                && answer == Answer(zones.Lookup(ReverseTuple(name)[..n]), name, rtype)
      ensures NearestIsExposed(name) ==>
                forall k :: NearestKey(k, name) ==> answer == Answer(zones.Lookup(k), name, rtype)
      ensures (forall k :: !EnclosingKey(k, name)) ==> answer == {}
    {
      ghost var n;
      answer, n := RecordsAt(name, rtype);
      ExposedIsNearest(name, n);
    }

    /** `replace`: all zones are the given ones or, if a record is not in its zone, nothing changes. */
    method Replace(data: seq<(string, seq<DNSRecord>)>) returns (ok: bool, ghost built: seq<DNSZone>)
      requires Valid()
      modifies this
      ensures Valid() && (ok <==> forall i :: 0 <= i < |data| ==> EntryOk(data[i]))
      ensures !ok ==> zones == old(zones)
      ensures ok ==> |built| == |data| && AllBuilt(built, data) && Mirrors(zones, built)
    {
      hide Mirrors, AllBuilt, EntryOk, RadixTree.Valid, RadixTree.Lookup, Named;
      var tree;
      ok, tree, built := BuildTree(data);
      if ok {
        zones := tree;
        ValidIfMirrors(built);
      }
    }

    lemma ValidIfMirrors(built: seq<DNSZone>)
      requires Mirrors(zones, built)
      ensures Valid()
    {
    }

    // ---------------------------------------- the nearest enclosing zone, exactly

    /** The name of the zone stored at `k`, without its outer dots. */
    ghost function NameAt(k: seq<string>): string
      requires zones.Lookup(k).Some?
      reads this, zones, zones.nodes.Values
    {
      Strip(zones.Lookup(k).value.name)
    }

    /** A zone is stored at `k`, and it encloses the name. */
    ghost predicate EnclosingKey(k: seq<string>, name: string)
      reads this, zones, zones.nodes.Values
    {
      zones.Lookup(k).Some? && Encloses(zones.Lookup(k).value.name, name)
    }

    /** Of all stored zones that enclose the name, the one at `k` has the longest name. */
    ghost predicate NearestKey(k: seq<string>, name: string)
      reads this, zones, zones.nodes.Values
    {
      EnclosingKey(k, name) && forall j :: EnclosingKey(j, name) ==> |NameAt(j)| <= |NameAt(k)|
    }

    /** An enclosing zone other than the root sits at a prefix of the name's tuple. */
    lemma EnclosingIsPrefix(k: seq<string>, name: string)
      requires Valid() && EnclosingKey(k, name) && NameAt(k) != ""
      ensures k <= ReverseTuple(name)
    {
      assert FiledUnder(zones.Lookup(k).value, k);
      EnclosesMeansPrefix(zones.Lookup(k).value.name, name);
    }

    lemma PrefixIsEnclosing(k: seq<string>, name: string)
      requires Valid() && zones.Lookup(k).Some? && k <= ReverseTuple(name)
      ensures EnclosingKey(k, name)
    {
      assert FiledUnder(zones.Lookup(k).value, k);
      EnclosesMeansPrefix(zones.Lookup(k).value.name, name);
    }

    /** Along one tuple, longer keys mean longer names. */
    lemma LongerKeyLongerName(j: seq<string>, k: seq<string>)
      requires Valid() && zones.Lookup(j).Some? && zones.Lookup(k).Some? && j <= k
      ensures |NameAt(j)| <= |NameAt(k)|
      ensures |NameAt(j)| == |NameAt(k)| ==> j == k
    {
      assert FiledUnder(zones.Lookup(j).value, j) && FiledUnder(zones.Lookup(k).value, k);
      PrefixMeansSuffix(zones.Lookup(j).value.name, zones.Lookup(k).value.name);
    }

    lemma OneRoot(j: seq<string>, k: seq<string>)
      requires Valid() && zones.Lookup(j).Some? && zones.Lookup(k).Some? && NameAt(j) == NameAt(k)
      ensures j == k
    {
      assert FiledUnder(zones.Lookup(j).value, j) && FiledUnder(zones.Lookup(k).value, k);
      SameTuple(zones.Lookup(j).value.name, zones.Lookup(k).value.name);
    }

    lemma NotDeeperThan(name: string, m: nat, j: seq<string>)
      requires Valid() && zones.DeepestValue(ReverseTuple(name), m) && EnclosingKey(j, name)
      ensures |NameAt(j)| <= |NameAt(ReverseTuple(name)[..m])|
      ensures |NameAt(j)| == |NameAt(ReverseTuple(name)[..m])| ==> j == ReverseTuple(name)[..m]
    {
      var key := ReverseTuple(name);
      if NameAt(j) != "" {
        EnclosingIsPrefix(j, name);
        assert j == key[..|j|];
        assert j <= key[..m];
        LongerKeyLongerName(j, key[..m]);
      } else if NameAt(key[..m]) == "" {
        OneRoot(j, key[..m]);
      }
    }

    /** The deepest value along the tuple is the nearest enclosing zone, and the only one. */
    lemma DeepestValueIsNearest(name: string, m: nat)
      requires Valid() && zones.DeepestValue(ReverseTuple(name), m)
      ensures forall k :: NearestKey(k, name) <==> k == ReverseTuple(name)[..m]
    {
      PrefixIsEnclosing(ReverseTuple(name)[..m], name);
      forall j | EnclosingKey(j, name)
        ensures |NameAt(j)| <= |NameAt(ReverseTuple(name)[..m])|
        ensures |NameAt(j)| == |NameAt(ReverseTuple(name)[..m])| ==> j == ReverseTuple(name)[..m]
      {
        NotDeeperThan(name, m, j);
      }
    }

    /** If any stored zone encloses the name, one of them is nearest. */
    lemma SomeZoneIsNearest(k: seq<string>, name: string) returns (near: seq<string>)
      requires Valid() && EnclosingKey(k, name)
      ensures NearestKey(near, name)
    {
      var key := ReverseTuple(name);
      hide ReverseTuple;
      var some, m := zones.ValueDepth(key);
      if some {
        DeepestValueIsNearest(name, m);
        near := key[..m];
      } else {
        RootIsNearest(k, name);
        near := k;
      }
    }

    lemma RootIsNearest(k: seq<string>, name: string)
      requires Valid() && EnclosingKey(k, name)
      requires forall m :: 0 <= m <= |ReverseTuple(name)| ==> zones.Lookup(ReverseTuple(name)[..m]).None?
      ensures NearestKey(k, name)
    {
      forall j | EnclosingKey(j, name)
        ensures NameAt(j) == ""
      {
        OnlyTheRootEncloses(j, name);
      }
    }

    lemma OnlyTheRootEncloses(j: seq<string>, name: string)
      requires Valid() && EnclosingKey(j, name)
      requires forall m :: 0 <= m <= |ReverseTuple(name)| ==> zones.Lookup(ReverseTuple(name)[..m]).None?
      ensures NameAt(j) == ""
    {
      if NameAt(j) != "" {
        EnclosingIsPrefix(j, name);
        PrefixIsSlice(j, ReverseTuple(name));
      }
    }

    /** `n` is how far the name's tuple follows some key that was ever added or removed. */
    ghost predicate Followed(name: string, n: nat)
      reads this, zones
    {
      var key := ReverseTuple(name);
      && n <= |key| && Spelled(zones.inserted, key[..n])
      && forall m :: n < m <= |key| ==> !Spelled(zones.inserted, key[..m])
    }

    /** A zone that `query` consults is always the nearest enclosing one.  It consults the nearest one
        exactly if the longest part of the tuple that any key ever added shares with the name is
        itself a zone now, or no stored zone encloses the name. */
    lemma QueryFindsNearestIff(name: string, n: nat)
      requires Valid() && zones.DeepestPath(ReverseTuple(name), n)
      ensures Followed(name, n)
      ensures var key := ReverseTuple(name);
              && (zones.Lookup(key[..n]).Some? ==> NearestKey(key[..n], name))
              && ((forall k :: NearestKey(k, name) ==> zones.Lookup(key[..n]) == zones.Lookup(k)) <==>
                    zones.Lookup(key[..n]).Some? || !exists k :: EnclosingKey(k, name))
    {
      var key := ReverseTuple(name);
      if zones.Lookup(key[..n]).Some? {
        assert zones.DeepestValue(key, n);
        DeepestValueIsNearest(name, n);
      } else if k :| EnclosingKey(k, name) {
        var near := SomeZoneIsNearest(k, name);
      }
    }

    /** The longest part of the tuple that any key ever inserted shares with the name is a zone now. */
    ghost predicate NearestIsExposed(name: string)
      reads this, zones, zones.nodes.Values
    {
      exists n: nat :: zones.DeepestPath(ReverseTuple(name), n) && zones.Lookup(ReverseTuple(name)[..n]).Some?
    }

    lemma ExposedIsNearest(name: string, n: nat)
      requires Valid() && zones.DeepestPath(ReverseTuple(name), n)
      ensures NearestIsExposed(name) ==>
                zones.Lookup(ReverseTuple(name)[..n]).Some?
                && forall k :: NearestKey(k, name) ==> zones.Lookup(k) == zones.Lookup(ReverseTuple(name)[..n])
      ensures (forall k :: !EnclosingKey(k, name)) ==> zones.Lookup(ReverseTuple(name)[..n]).None?
    {
      var key := ReverseTuple(name);
      hide ReverseTuple;
      if NearestIsExposed(name) {
        var m: nat :| zones.DeepestPath(key, m) && zones.Lookup(key[..m]).Some?;
        zones.SameDepth(key, m, n);
      }
      QueryFindsNearestIff(name, n);
    }

    /** The root zone never answers for another name: it is stored under a tuple of its own. */
    lemma RootAnswersNobodyElse(name: string, n: nat)
      requires Valid() && zones.DeepestPath(ReverseTuple(name), n) && Strip(name) != ""
      ensures zones.Lookup(ReverseTuple(name)[..n]).Some? ==> NameAt(ReverseTuple(name)[..n]) != ""
    {
      var k := ReverseTuple(name)[..n];
      if zones.Lookup(k).Some? {
        assert FiledUnder(zones.Lookup(k).value, k);
        EnclosesMeansPrefix(zones.Lookup(k).value.name, name);
      }
    }
  }

  // --------------------------------------------------------------- zones that `query` misses

  lemma Shadow<L(!new)>(com: L, b: L, a: L, x: L)
    requires x != a
    ensures var keys, key := {[com], [com, b, a]}, [com, b, x];
            && key[..0] == [] && key[..1] == [com] && key[..2] == [com, b] && key[..3] == key
            && Spelled(keys, key[..2]) && !Spelled(keys, key[..3]) && key != [com, b, a]
  {
    assert [com, b] <= [com, b, a];
    assert [com, b, x][2] != [com, b, a][2];
  }

  /** With values at (com) and (com, b, a) alone, the deepest path of (com, b, x) is not its deepest value. */
  lemma ShadowInTree<L(!new), T>(tree: RadixTree<L, T>, com: L, b: L, a: L, x: L)
    requires x != a && tree.Valid() && tree.inserted == {[com], [com, b, a]}
    requires forall k :: tree.Lookup(k).Some? <==> k == [com, b, a] || k == [com]
    ensures tree.DeepestPath([com, b, x], 2) && tree.DeepestValue([com, b, x], 1)
    ensures [com, b, x][..2] == [com, b] && [com, b, x][..1] == [com]
    ensures tree.Lookup([com, b]).None?
  {
    Shadow(com, b, a, x);
    var key := [com, b, x];
    assert tree.HasPath(key[..2]) && !tree.HasPath(key[..3]);
    assert tree.Lookup(key[..2]).None? && tree.Lookup(key[..3]).None?;
  }

  /** One label. */
  predicate Word(w: string) {
    w != "" && forall i :: 0 <= i < |w| ==> w[i] != '.'
  }

  lemma {:induction false} SplitWord(s: string)
    requires forall i :: 0 <= i < |s| ==> s[i] != '.'
    ensures Split(s) == [s]
  {
    if s != [] {
      SplitWord(s[1..]);
      assert [s[0]] + s[1..] == s;
    }
  }

  lemma TupleOfWord(w: string)
    requires Word(w)
    ensures ReverseTuple(w) == [w]
  {
    SplitWord(w);
    assert Reverse([w]) == [w];
  }

  /** The name of three labels. */
  function Name(a: string, b: string, c: string): string {
    a + "." + (b + "." + c)
  }

  lemma TupleOfName(a: string, b: string, c: string)
    requires Word(a) && Word(b) && Word(c)
    ensures ReverseTuple(Name(a, b, c)) == [c, b, a]
  {
    var name := Name(a, b, c);
    assert name[0] == a[0] && name[|name| - 1] == c[|c| - 1];
    assert Strip(name) == name;
    SplitWord(a);
    SplitWord(b);
    SplitWord(c);
    hide Split, Strip;
    SplitAtDot(b, c);
    SplitAtDot(a, b + "." + c);
    assert [a] + ([b] + [c]) == [a, b, c];
  }

  lemma EndsWithDot(s: string)
    requires s != ""
    ensures EndsWith(s, ".") <==> s[|s| - 1] == '.'
  {
    assert s[|s| - 1..] == [s[|s| - 1]];
  }

  lemma NameEnds(a: string, b: string, c: string)
    requires Word(c)
    ensures EndsWith(Name(a, b, c) + ".", Dotted(c)) && Dotted(Name(a, b, c)) == Name(a, b, c) + "."
  {
    var name := Name(a, b, c);
    assert c[|c| - 1] == name[|name| - 1] != '.';
    EndsWithDot(c);
    EndsWithDot(name);
    assert (name + ".")[|name| - |c|..] == c + ".";
  }

  /** A zone of its own with one record in it. */
  method ZoneWith(name: string, r: DNSRecord) returns (zone: DNSZone)
    requires EndsWith(r.name, Dotted(name))
    ensures fresh(zone) && zone.Valid() && zone.name == Dotted(name)
    ensures zone.records == map[KeyOf(r) := {r}]
  {
    zone := new DNSZone(name);
    var ok := zone.AddRecord(r);
    AddedToEmpty(r);
  }

  lemma AddedToEmpty(r: DNSRecord)
    ensures Added(map[], r) == map[KeyOf(r) := {r}]
  {
    assert {} + {r} == {r};
  }

  /** The state of a store with the two zones, as `ShadowedZone` needs it. */
  lemma ShadowInStore(store: DNSStore, com: string, b: string, a: string, x: string)
    requires Word(com) && Word(b) && Word(a) && Word(x) && x != a
    requires store.Valid() && store.zones.inserted == {[com], [com, b, a]}
    requires forall k :: store.zones.Lookup(k).Some? <==> k == [com, b, a] || k == [com]
    ensures ReverseTuple(Name(x, b, com)) == [com, b, x]
    ensures store.zones.DeepestPath([com, b, x], 2) && store.zones.Lookup([com, b, x][..2]).None?
    ensures store.NearestKey([com], Name(x, b, com))
  {
    TupleOfName(x, b, com);
    hide ReverseTuple;
    ShadowInTree(store.zones, com, b, a, x);
    store.DeepestValueIsNearest(Name(x, b, com), 1);
  }

  /** The lookup of x.b.com in such a store. */
  method QueryShadowed(store: DNSStore, com: string, b: string, ghost a: string, x: string, rtype: int)
    returns (answer: set<DNSRecord>)
    requires Word(com) && Word(b) && Word(a) && Word(x) && x != a
    requires store.Valid() && store.zones.inserted == {[com], [com, b, a]}
    requires forall k :: store.zones.Lookup(k).Some? <==> k == [com, b, a] || k == [com]
    requires store.zones.Lookup([com]).value.Valid() && store.zones.Lookup([com, b, a]).value.Valid()
    ensures answer == {} && store.NearestKey([com], Name(x, b, com))
  {
    ShadowInStore(store, com, b, a, x);
    hide ReverseTuple, Word, Name, DNSStore.Valid, RadixTree.Lookup;
    ghost var n;
    answer, n := store.RecordsAt(Name(x, b, com), rtype);
    store.zones.SameDepth([com, b, x], n, 2);
  }

  /** Two zones in a new store. */
  method StoreOf(one: DNSZone, two: DNSZone) returns (store: DNSStore)
    requires ReverseTuple(one.name) != ReverseTuple(two.name)
    ensures fresh(store) && fresh(store.zones) && fresh(store.zones.nodes.Values) && store.Valid()
    ensures store.zones.inserted == {ReverseTuple(one.name), ReverseTuple(two.name)}
    ensures forall k :: store.zones.Lookup(k) ==
              if k == ReverseTuple(two.name) then Some(two)
              else if k == ReverseTuple(one.name) then Some(one) else None
  {
    hide ReverseTuple, DNSStore.Valid, RadixTree.Lookup;
    store := new DNSStore();
    var ok := store.AddZone(one);
    ok := store.AddZone(two);
  }

  /** A nearest zone that `query` misses, for all labels with x other than a: with the zones com, which
      holds a record of x.b.com, and a.b.com, the lookup of x.b.com ends at the empty node of b.com and
      finds nothing, although com is the nearest enclosing zone and would answer with that record. */
  method ShadowedZone(com: string, b: string, a: string, x: string, rtype: int, data: string)
    returns (store: DNSStore, answer: set<DNSRecord>)
    requires Word(com) && Word(b) && Word(a) && Word(x) && x != a
    ensures fresh(store) && store.Valid() && answer == {}
    ensures store.NearestKey([com], Name(x, b, com))
    ensures Answer(store.zones.Lookup([com]), Name(x, b, com), rtype)
            == {DNSRecord(Name(x, b, com) + ".", rtype, data, 1, 0)}
  {
    var one, two := TwoZones(com, b, a, DNSRecord(Name(x, b, com) + ".", rtype, data, 1, 0), x);
    NameEnds(x, b, com);
    hide ReverseTuple, Word, Name, Dotted, DNSStore.Valid, DNSZone.Valid, RadixTree.Lookup, DNSStore.NearestKey;
    store := StoreOf(one, two);
    answer := QueryShadowed(store, com, b, a, x, rtype);
  }

  method TwoZones(com: string, b: string, a: string, r: DNSRecord, ghost x: string) returns (one: DNSZone, two: DNSZone)
    requires Word(com) && Word(b) && Word(a) && r.name == Name(x, b, com) + "."
    ensures fresh(one) && fresh(two) && one.Valid() && two.Valid()
    ensures ReverseTuple(one.name) == [com] && ReverseTuple(two.name) == [com, b, a]
    ensures one.records == map[KeyOf(r) := {r}]
  {
    NameEnds(x, b, com);
    TupleOfWord(com);
    TupleOfDotted(com);
    TupleOfName(a, b, com);
    TupleOfDotted(Name(a, b, com));
    hide ReverseTuple, Word, Dotted;
    one := ZoneWith(com, r);
    two := new DNSZone(Name(a, b, com));
  }

  /** The root zone is the nearest for every name if it is the only one, and yet `query` finds nothing
      in it for any name but its own. */
  method RootZoneMissed(name: string, rtype: int, data: string, ttl: int)
    returns (store: DNSStore, answer: set<DNSRecord>)
    requires Strip(name) != ""
    ensures fresh(store) && store.Valid() && answer == {}
    ensures store.NearestKey([""], name)
    ensures Answer(store.zones.Lookup([""]), name, rtype) == {DNSRecord(Dotted(name), rtype, data, 1, ttl)}
  {
    var root := ZoneWith(".", DNSRecord(Dotted(name), rtype, data, 1, ttl));
    RootTuple();
    hide ReverseTuple, Strip, Split, Dotted, DNSStore.Valid, RadixTree.Lookup;
    store := new DNSStore();
    var ok := store.AddZone(root);
    RootInStore(store, name);
    ghost var n;
    answer, n := store.RecordsAt(name, rtype);
  }

  lemma RootTuple()
    ensures ReverseTuple(".") == [""] && Strip(".") == "" && Dotted(".") == "."
  {
  }

  lemma RootInStore(store: DNSStore, name: string)
    requires store.Valid() && Strip(name) != ""
    requires forall k :: store.zones.Lookup(k).Some? <==> k == [""]
    requires store.zones.Lookup([""]).value.name == "."
    ensures store.NearestKey([""], name)
    ensures forall n: nat :: store.zones.DeepestPath(ReverseTuple(name), n) ==>
              store.zones.Lookup(ReverseTuple(name)[..n]).None?
  {
    RootTuple();
    hide ReverseTuple, Strip, Split;
    forall n: nat | store.zones.DeepestPath(ReverseTuple(name), n)
      ensures store.zones.Lookup(ReverseTuple(name)[..n]).None?
    {
      store.RootAnswersNobodyElse(name, n);
    }
  }
}
