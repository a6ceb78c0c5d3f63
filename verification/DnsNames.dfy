/**
 Domain names as `aiomisc/service/dns/store.py` cuts them: `zone_name.strip(".").split(".")`, reversed.
 What it means for one reversed tuple to be a prefix of another is stated on the names themselves.
 */
module DnsNames {

  /** `s.strip(".")`. */
  function Strip(s: string): (r: string)
    ensures r != [] ==> r[0] != '.' && r[|r| - 1] != '.'
  {
    if s == [] then []
    else if s[0] == '.' then Strip(s[1..])
    else if s[|s| - 1] == '.' then Strip(s[..|s| - 1])
    else s
  }

  /** `s.split(".")`: never empty. */
  function Split(s: string): (r: seq<string>)
    ensures r != []
  {
    if s == [] then [[]] else Glue(s[0], Split(s[1..]))
  }

  /** One more character before labels: a dot opens a label, any other extends the first. */
  function Glue(c: char, labels: seq<string>): (r: seq<string>)
    requires labels != []
    ensures r != []
  {
    if c == '.' then [[]] + labels else [[c] + labels[0]] + labels[1..]
  }

  lemma GlueConcat(c: char, a: seq<string>, b: seq<string>)
    requires a != []
    ensures Glue(c, a + b) == Glue(c, a) + b
  {
    assert (a + b)[0] == a[0] && (a + b)[1..] == a[1..] + b;
  }

  function Join(labels: seq<string>): string
    requires labels != []
  {
    if |labels| == 1 then labels[0] else labels[0] + "." + Join(labels[1..])
  }

  function Reverse<T>(s: seq<T>): (r: seq<T>)
    ensures |r| == |s| && forall i :: 0 <= i < |s| ==> r[i] == s[|s| - 1 - i]
  {
    if s == [] then [] else Reverse(s[1..]) + [s[0]]
  }

  /** `get_reverse_tuple`. */
  function ReverseTuple(name: string): (r: seq<string>)
    ensures r != []
  {
    Reverse(Split(Strip(name)))
  }

  predicate EndsWith(s: string, suffix: string) {
    |suffix| <= |s| && s[|s| - |suffix|..] == suffix
  }

  /** The name with its closing dot, as `query` and `DNSZone` write it. */
  function Dotted(name: string): (r: string)
    ensures EndsWith(r, ".")
  {
    if EndsWith(name, ".") then name else name + "."
  }

  /** The closing dot is written once. */
  lemma DottedOnce(name: string)
    ensures EndsWith(name, ".") ==> Dotted(name) == name
    ensures Dotted(Dotted(name)) == Dotted(name) && (Dotted(name) == name || Dotted(name) == name + ".")
  {
  }

  lemma {:induction false} JoinSplit(s: string)
    ensures Join(Split(s)) == s
  {
    if s != [] {
      JoinSplit(s[1..]);
      var rest := Split(s[1..]);
      if s[0] == '.' {
        assert ([[]] + rest)[1..] == rest;
        assert s == "." + s[1..];
      } else {
        assert ([[s[0]] + rest[0]] + rest[1..])[1..] == rest[1..];
        assert s == [s[0]] + s[1..];
        if |rest| > 1 {
          assert [s[0]] + (rest[0] + "." + Join(rest[1..])) == [s[0]] + rest[0] + "." + Join(rest[1..]);
        }
      }
    }
  }

  lemma {:induction false} SplitAtDot(a: string, b: string)
    ensures Split(a + "." + b) == Split(a) + Split(b)
  {
    var s := a + "." + b;
    if a == [] {
      assert s[0] == '.' && s[1..] == b;
    } else {
      assert s[0] == a[0] && s[1..] == a[1..] + "." + b;
      SplitAtDot(a[1..], b);
      GlueConcat(a[0], Split(a[1..]), Split(b));
    }
  }

  lemma {:induction false} JoinConcat(a: seq<string>, b: seq<string>)
    requires a != [] && b != []
    ensures Join(a + b) == Join(a) + "." + Join(b)
  {
    if |a| == 1 {
      assert (a + b)[1..] == b;
    } else {
      assert (a + b)[1..] == a[1..] + b;
      JoinConcat(a[1..], b);
    }
  }

  lemma {:induction false} ReverseConcat<T>(a: seq<T>, b: seq<T>)
    ensures Reverse(a + b) == Reverse(b) + Reverse(a)
  {
  }

  lemma {:induction false} ReverseReverse<T>(s: seq<T>)
    ensures Reverse(Reverse(s)) == s
  {
  }

  lemma {:induction false} PrefixGivesSuffix(z: string, n: string)
    requires Reverse(Split(z)) <= Reverse(Split(n))
    ensures z == n || EndsWith(n, "." + z)
  {
    ReversePrefix(Split(z), Split(n));
    var head := Split(n)[..|Split(n)| - |Split(z)|];
    assert Split(n) == head + Split(z);
    JoinSplit(n);
    JoinSplit(z);
    if head == [] {
      assert head + Split(z) == Split(z);
    } else {
      JoinConcat(head, Split(z));
      assert n == Join(head) + ("." + z);
    }
  }

  lemma {:induction false} ReversePrefix<T>(a: seq<T>, b: seq<T>)
    requires Reverse(a) <= Reverse(b)
    ensures |a| <= |b| && b[|b| - |a|..] == a
  {
    forall i | 0 <= i < |a|
      ensures b[|b| - |a|..][i] == a[i]
    {
      assert Reverse(a)[|a| - 1 - i] == Reverse(b)[|a| - 1 - i];
    }
  }

  lemma {:induction false} SuffixGivesPrefix(z: string, n: string)
    requires EndsWith(n, "." + z)
    ensures Reverse(Split(z)) <= Reverse(Split(n))
  {
    var a := n[..|n| - |"." + z|];
    assert n == a + "." + z;
    SplitAtDot(a, z);
    ReverseConcat(Split(a), Split(z));
  }

  /** A zone's tuple is a prefix of a name's tuple exactly if the names are equal without their outer
      dots, or the name ends with a dot and the zone: label boundaries are respected. */
  lemma PrefixMeansSuffix(zone: string, name: string)
    ensures ReverseTuple(zone) <= ReverseTuple(name) <==>
            Strip(zone) == Strip(name) || EndsWith(Strip(name), "." + Strip(zone))
  {
    if ReverseTuple(zone) <= ReverseTuple(name) {
      PrefixGivesSuffix(Strip(zone), Strip(name));
    }
    if EndsWith(Strip(name), "." + Strip(zone)) {
      SuffixGivesPrefix(Strip(zone), Strip(name));
    }
  }

  /** Two names share a tuple exactly if they are equal without their outer dots. */
  lemma SameTuple(a: string, b: string)
    ensures ReverseTuple(a) == ReverseTuple(b) <==> Strip(a) == Strip(b)
  {
    if ReverseTuple(a) == ReverseTuple(b) {
      ReverseReverse(Split(Strip(a)));
      ReverseReverse(Split(Strip(b)));
      JoinSplit(Strip(a));
      JoinSplit(Strip(b));
    }
  }

  lemma {:induction false} StripOfDotted(name: string)
    ensures Strip(Dotted(name)) == Strip(name)
  {
    if !EndsWith(name, ".") {
      StripTrailing(name);
    }
  }

  lemma TupleOfDotted(name: string)
    ensures ReverseTuple(Dotted(name)) == ReverseTuple(name)
  {
    StripOfDotted(name);
  }

  lemma {:induction false} StripTrailing(name: string)
    ensures Strip(name + ".") == Strip(name)
  {
    if name != [] {
      if name[0] == '.' {
        StripTrailing(name[1..]);
        assert (name + ".")[1..] == name[1..] + ".";
      } else {
        assert (name + ".")[..|name|] == name;
      }
    }
  }
}
