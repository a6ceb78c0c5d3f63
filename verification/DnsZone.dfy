/**
 `DNSZone` of `aiomisc/service/dns/zone.py`: a dictionary from name and type to sets of records.
 Equality of records ignores the ttl, so adding an equal record keeps the one already stored.
 */
module DnsZone {
  import opened Basics
  import opened DnsNames

  datatype DNSRecord = DNSRecord(name: string, rtype: int, data: string, cls: int, ttl: int)

  predicate Same(a: DNSRecord, b: DNSRecord) {
    a.(ttl := 0) == b.(ttl := 0)
  }

  type Records = map<(string, int), set<DNSRecord>>

  function KeyOf(r: DNSRecord): (string, int) {
    (r.name, r.rtype)
  }

  predicate Holds(records: Records, r: DNSRecord) {
    KeyOf(r) in records && exists q :: q in records[KeyOf(r)] && Same(q, r)
  }

  function Stored(records: Records, key: (string, int)): set<DNSRecord> {
    if key in records then records[key] else {}
  }

  function Added(records: Records, r: DNSRecord): Records {
    if Holds(records, r) then records else records[KeyOf(r) := Stored(records, KeyOf(r)) + {r}]
  }

  function Removed(records: Records, r: DNSRecord): Records {
    if KeyOf(r) !in records then records
    else
      var rest := set q | q in records[KeyOf(r)] && !Same(q, r);
      if rest == {} then records - {KeyOf(r)} else records[KeyOf(r) := rest]
  }

  /** Every record is filed under its own name and type, belongs to the zone, and has no equal;
      no set is empty. */
  ghost predicate Filed(zone: string, records: Records) {
    forall k :: k in records ==> SetOk(zone, k, records[k])
  }

  ghost predicate SetOk(zone: string, key: (string, int), rs: set<DNSRecord>) {
    && rs != {}
    && (forall q :: q in rs ==> KeyOf(q) == key && EndsWith(q.name, zone))
    && (forall p, q :: p in rs && q in rs && Same(p, q) ==> p == q)
  }

  lemma AddedFiled(zone: string, records: Records, r: DNSRecord)
    requires Filed(zone, records) && EndsWith(r.name, zone)
    ensures Filed(zone, Added(records, r)) && Holds(Added(records, r), r)
  {
    if !Holds(records, r) {
      var grown := Stored(records, KeyOf(r)) + {r};
      assert KeyOf(r) in records ==> SetOk(zone, KeyOf(r), records[KeyOf(r)]);
      assert r in grown && Same(r, r);
      assert SetOk(zone, KeyOf(r), grown);
    }
  }

  lemma RemovedFiled(zone: string, records: Records, r: DNSRecord)
    requires Filed(zone, records)
    ensures Filed(zone, Removed(records, r)) && !Holds(Removed(records, r), r)
  {
    assert KeyOf(r) in records ==> SetOk(zone, KeyOf(r), records[KeyOf(r)]);
  }

  /** The records are equal in everything but, perhaps, the ttl. */
  predicate Alike(a: DNSRecord, b: DNSRecord) {
    a.name == b.name && a.rtype == b.rtype && a.data == b.data && a.cls == b.cls
  }

  /** Adding changes the zone by this record, if none is alike, and by nothing else; so records that differ
      in name, type, data or class are all held, and of those that differ in the ttl alone the first. */
  lemma AddedExactly(records: Records, r: DNSRecord, key: (string, int), q: DNSRecord)
    ensures q in Stored(Added(records, r), key) <==>
            || q in Stored(records, key)
            || (q == r && key == (r.name, r.rtype) && forall p :: p in Stored(records, key) ==> !Alike(p, r))
  {
    assert forall p :: p in Stored(records, KeyOf(r)) ==> (Same(p, r) <==> Alike(p, r));
  }

  /** Removing takes out what is alike, whatever its ttl, and nothing else. */
  lemma RemovedExactly(records: Records, r: DNSRecord, key: (string, int), q: DNSRecord)
    ensures q in Stored(Removed(records, r), key) <==>
            q in Stored(records, key) && !(key == (r.name, r.rtype) && Alike(q, r))
  {
    assert Same(q, r) <==> Alike(q, r);
  }

  /** Removing what was just added restores the zone, unless an equal record was there before. */
  lemma RemoveUndoesAdd(zone: string, records: Records, r: DNSRecord)
    requires Filed(zone, records) && !Holds(records, r)
    ensures Removed(Added(records, r), r) == records
  {
    var key := KeyOf(r);
    var was := Stored(records, key);
    assert key in records ==> SetOk(zone, key, records[key]);
    assert (set q | q in was + {r} && !Same(q, r)) == was;
  }

  /** The first `n` records of the list are added. */
  function AddedFirst(rs: seq<DNSRecord>, n: nat): Records
    requires n <= |rs|
  {
    if n == 0 then map[] else Added(AddedFirst(rs, n - 1), rs[n - 1])
  }

  function AddedAll(rs: seq<DNSRecord>): Records {
    AddedFirst(rs, |rs|)
  }

  lemma {:induction false} AddedFirstHolds(rs: seq<DNSRecord>, n: nat, r: DNSRecord)
    requires n <= |rs|
    ensures Holds(AddedFirst(rs, n), r) <==> exists i :: 0 <= i < n && Same(rs[i], r)
  {
    if n != 0 {
      AddedFirstHolds(rs, n - 1, r);
      AddedHolds(AddedFirst(rs, n - 1), rs[n - 1], r);
    }
  }

  /** A zone built from a list holds exactly the listed records, up to ttl. */
  lemma AddedAllHolds(rs: seq<DNSRecord>, r: DNSRecord)
    ensures Holds(AddedAll(rs), r) <==> exists i :: 0 <= i < |rs| && Same(rs[i], r)
  {
    AddedFirstHolds(rs, |rs|, r);
  }

  lemma AddedHolds(records: Records, added: DNSRecord, r: DNSRecord)
    ensures Holds(Added(records, added), r) <==> Holds(records, r) || Same(added, r)
  {
    assert Same(added, r) ==> KeyOf(added) == KeyOf(r);
    if Same(added, r) {
      assert Same(added, added);
      if Holds(records, added) {
        var q :| q in records[KeyOf(added)] && Same(q, added);
        assert Same(q, r);
      } else {
        assert added in Added(records, added)[KeyOf(r)];
      }
    }
    if Holds(records, r) {
      var q :| q in records[KeyOf(r)] && Same(q, r);
      assert q in Added(records, added)[KeyOf(r)];
    }
  }

  class DNSZone {
    const name: string
    var records: Records

    ghost predicate Valid()
      reads this
    {
      Filed(name, records)
    }

    constructor (name: string)
      ensures this.name == Dotted(name) && records == map[] && Valid()
    {
      this.name := Dotted(name);
      records := map[];
    }

    method AddRecord(r: DNSRecord) returns (ok: bool)
      requires Valid()
      modifies this`records
      ensures Valid() && (ok <==> EndsWith(r.name, name))
      ensures records == if ok then Added(old(records), r) else old(records)
    {
      ok := EndsWith(r.name, name);
      if ok {
        AddedFiled(name, records, r);
        if !Holds(records, r) {
          records := records[KeyOf(r) := Stored(records, KeyOf(r)) + {r}];
        }
      }
    }

    method RemoveRecord(r: DNSRecord)
      requires Valid()
      modifies this`records
      ensures Valid() && records == Removed(old(records), r)
    {
      RemovedFiled(name, records, r);
      var key := KeyOf(r);
      if key in records {
        var rest := set q | q in records[key] && !Same(q, r);
        records := records[key := rest];
        if rest == {} {
          records := records - {key};
        }
      }
    }

    method GetRecords(name: string, rtype: int) returns (r: set<DNSRecord>)
      requires Valid()
      ensures r == Stored(records, (Dotted(name), rtype))
      ensures forall q :: q in r ==> q.name == Dotted(name) && q.rtype == rtype && EndsWith(q.name, this.name)
    {
      r := Stored(records, (Dotted(name), rtype));
      assert (Dotted(name), rtype) in records ==> SetOk(this.name, (Dotted(name), rtype), r);
    }

    /** `replace`: all records or, if one does not belong to the zone, no change at all. */
    method Replace(rs: seq<DNSRecord>) returns (ok: bool)
      requires Valid()
      modifies this`records
      ensures Valid() && (ok <==> forall i :: 0 <= i < |rs| ==> EndsWith(rs[i].name, name))
      ensures records == if ok then AddedAll(rs) else old(records)
    {
      var built := BuildRecords(name, rs);
      ok := built.Some?;
      if ok {
        records := built.value;
      }
    }
  }

  /** The loop of `replace`; no dictionary where the source raises ValueError. */
  method BuildRecords(zone: string, rs: seq<DNSRecord>) returns (r: Option<Records>)
    ensures r.Some? <==> forall i :: 0 <= i < |rs| ==> EndsWith(rs[i].name, zone)
    ensures r.Some? ==> r.value == AddedAll(rs) && Filed(zone, r.value)
  {
    var built: Records := map[];
    for i := 0 to |rs|
      invariant built == AddedFirst(rs, i) && Filed(zone, built)
      invariant forall j :: 0 <= j < i ==> EndsWith(rs[j].name, zone)
    {
      hide Filed, Added, EndsWith;
      if !EndsWith(rs[i].name, zone) {
        return None;
      }
      AddedFiled(zone, built, rs[i]);
      built := Added(built, rs[i]);
    }
    return Some(built);
  }
}
