/** tunnel/virtualhost.go: which host name belongs to which client.

    The storage is one map from host to (identifier, rules). Lookups by identifier scan it in whatever
    order the map yields its keys, so they only have one answer while no identifier owns two hosts. */
module VirtualHosts {

  import opened Base

  datatype Rule = Rule(pattern: string, replacement: string)

  datatype VirtualHost = VirtualHost(identifier: string, rewrite: seq<Rule>)

  type Mapping = map<string, VirtualHost>

  /** No identifier owns two hosts. */
  ghost predicate OneHostEach(m: Mapping) {
    forall g, h :: g in m && h in m && m[g].identifier == m[h].identifier ==> g == h
  }

  ghost function HostsOf(m: Mapping, id: string): set<string> {
    set h | h in m && m[h].identifier == id
  }

  /** A host of the identifier, the only one when OneHostEach holds. */
  ghost function HostOf(m: Mapping, id: string): (r: Option<string>)
    ensures r.Some? ==> r.value in HostsOf(m, id)
    ensures r.None? ==> HostsOf(m, id) == {}
  {
    if h :| h in HostsOf(m, id) then Some(h) else None
  }

  function IdentifierOf(m: Mapping, host: string): Option<string> {
    if host in m then Some(m[host].identifier) else None
  }

  predicate InUseByAnother(m: Mapping, host: string, id: string) {
    host in m && m[host].identifier != id
  }

  /** The mapping after a claim: unchanged if somebody else owns the host; otherwise the claim replaces
      every host the identifier held. */
  function Claimed(m: Mapping, host: string, id: string, rewrite: seq<Rule>): Mapping {
    if InUseByAnother(m, host, id) then m else Without(m, id)[host := VirtualHost(id, rewrite)]
  }

  /** The hosts of everybody else. */
  function Without(m: Mapping, id: string): Mapping {
    map h | h in m && m[h].identifier != id :: m[h]
  }

  function Released(m: Mapping, host: string): Mapping {
    map h | h in m && h != host :: m[h]
  }

  class Storage {
    var mapping: Mapping

    ghost predicate Valid()
      reads this
    {
      OneHostEach(mapping)
    }

    constructor ()
      ensures Valid() && mapping == map[]
    {
      mapping := map[];
    }

    /** Deletes while iterating: `todo` holds the keys the range loop has yet to yield, in any order. */
    method AddHost(host: string, id: string, rewrite: seq<Rule>) returns (ok: bool)
      modifies this
      ensures ok == !InUseByAnother(old(mapping), host, id)
      ensures mapping == Claimed(old(mapping), host, id, rewrite)
      ensures old(Valid()) ==> Valid()
    {
      if host in mapping && mapping[host].identifier != id {
        return false;
      }
      ghost var was := mapping;
      var todo := mapping.Keys;
      while todo != {}
        invariant todo <= mapping.Keys <= was.Keys
        invariant forall h :: h in mapping ==> mapping[h] == was[h]
        invariant forall h :: h in was && h !in mapping ==> was[h].identifier == id && h != host
        invariant forall h :: h in mapping && h !in todo ==> was[h].identifier != id || h == host
        decreases todo
      {
        var h :| h in todo;
        todo := todo - {h};
        if mapping[h].identifier == id && h != host {
          mapping := map k | k in mapping && k != h :: mapping[k];
        }
      }
      mapping := mapping[host := VirtualHost(id, rewrite)];
      assert mapping == Claimed(was, host, id, rewrite);
      return true;
    }

    method DeleteHost(host: string)
      modifies this
      ensures mapping == Released(old(mapping), host)
      ensures old(Valid()) ==> Valid()
    {
      mapping := map h | h in mapping && h != host :: mapping[h];
    }

    method GetIdentifier(host: string) returns (id: string, ok: bool)
      ensures (if ok then Some(id) else None) == IdentifierOf(mapping, host)
      ensures !ok ==> id == ""
    {
      if host !in mapping {
        return "", false;
      }
      return mapping[host].identifier, true;
    }

    method GetHost(id: string) returns (host: string, ok: bool)
      requires Valid()
      ensures (if ok then Some(host) else None) == HostOf(mapping, id)
      ensures !ok ==> host == ""
    {
      var todo := mapping.Keys;
      while todo != {}
        invariant todo <= mapping.Keys
        invariant forall h :: h in mapping && h !in todo ==> mapping[h].identifier != id
        decreases todo
      {
        var h :| h in todo;
        if mapping[h].identifier == id {
          assert h in HostsOf(mapping, id);
          return h, true;
        }
        todo := todo - {h};
      }
      return "", false;
    }

    method GetVirtualHost(id: string) returns (vh: Option<VirtualHost>, host: string)
      requires Valid()
      ensures vh.Some? ==> HostOf(mapping, id) == Some(host) && vh.value == mapping[host]
      ensures vh.None? ==> HostOf(mapping, id) == None && host == ""
    {
      var ok;
      host, ok := GetHost(id);
      vh := if ok then Some(mapping[host]) else None;
    }
  }

  // ---------------------------------------------------------------------------------------------
  // Runs of AddHost and DeleteHost

  datatype Op =
    | Add(host: string, id: string, rewrite: seq<Rule>)
    | Delete(host: string)

  function Apply(m: Mapping, op: Op): Mapping {
    match op
    case Add(host, id, rewrite) => Claimed(m, host, id, rewrite)
    case Delete(host) => Released(m, host)
  }

  function ApplyAll(m: Mapping, ops: seq<Op>): Mapping {
    if ops == [] then m else Apply(ApplyAll(m, ops[..|ops| - 1]), ops[|ops| - 1])
  }

  lemma {:induction false} RunsKeepOneHostEach(m: Mapping, ops: seq<Op>)
    requires OneHostEach(m)
    ensures OneHostEach(ApplyAll(m, ops))
  {
    if ops != [] {
      RunsKeepOneHostEach(m, ops[..|ops| - 1]);
    }
  }

  lemma LookupsAreInverse(m: Mapping, id: string, host: string)
    requires OneHostEach(m)
    ensures HostOf(m, id) == Some(host) <==> IdentifierOf(m, host) == Some(id)
  {
    if IdentifierOf(m, host) == Some(id) {
      assert host in HostsOf(m, id);
    }
  }

  /** After any sequence of AddHost and DeleteHost the two lookups are inverse to each other. */
  lemma {:induction false} Bijection(ops: seq<Op>, id: string, host: string)
    ensures var m := ApplyAll(map[], ops);
            HostOf(m, id) == Some(host) <==> IdentifierOf(m, host) == Some(id)
  {
    RunsKeepOneHostEach(map[], ops);
    LookupsAreInverse(ApplyAll(map[], ops), id, host);
  }

  // ---------------------------------------------------------------------------------------------
  // Iteration order

  /** GetHost when the map is ranged over in the given order: the first match. */
  function Scan(m: Mapping, id: string, order: seq<string>): Option<string> {
    if order == [] then None
    else if order[0] in m && m[order[0]].identifier == id then Some(order[0])
    else Scan(m, id, order[1..])
  }

  lemma {:induction false} ScanFindsAMatch(m: Mapping, id: string, order: seq<string>)
    ensures var r := Scan(m, id, order);
            && (r.Some? ==> r.value in order && r.value in HostsOf(m, id))
            && (r.None? ==> forall h :: h in order ==> h !in HostsOf(m, id))
  {
    if order != [] {
      ScanFindsAMatch(m, id, order[1..]);
    }
  }

  /** A scan has the same answer in every order exactly when the identifier owns at most one host. */
  lemma {:induction false} ScanOrderIrrelevantIffOneHost(m: Mapping, id: string)
    ensures (forall o, o' :: IsOrder(m, o) && IsOrder(m, o') ==> Scan(m, id, o) == Scan(m, id, o'))
            <==> (forall g, h :: g in HostsOf(m, id) && h in HostsOf(m, id) ==> g == h)
  {
    if forall g, h :: g in HostsOf(m, id) && h in HostsOf(m, id) ==> g == h {
      forall o, o' | IsOrder(m, o) && IsOrder(m, o') ensures Scan(m, id, o) == Scan(m, id, o') {
        ScanFindsAMatch(m, id, o);
        ScanFindsAMatch(m, id, o');
      }
    } else {
      var g, h :| g in HostsOf(m, id) && h in HostsOf(m, id) && g != h;
      var o := OrderStartingWith(m, g);
      var o' := OrderStartingWith(m, h);
      assert Scan(m, id, o) == Some(g) && Scan(m, id, o') == Some(h);
    }
  }

  /** The delete-while-iterating loop of AddHost in a given order. */
  function Sweep(m: Mapping, host: string, id: string, order: seq<string>): Mapping {
    if order == [] then m
    else if order[0] in m && m[order[0]].identifier == id && order[0] != host then
      Sweep(Released(m, order[0]), host, id, order[1..])
    else Sweep(m, host, id, order[1..])
  }

  lemma {:induction false} SweepRemoves(m: Mapping, host: string, id: string, order: seq<string>)
    ensures Sweep(m, host, id, order)
            == map h | h in m && !(h in order && m[h].identifier == id && h != host) :: m[h]
  {
    if order != [] {
      var m' := if order[0] in m && m[order[0]].identifier == id && order[0] != host
                then Released(m, order[0]) else m;
      SweepRemoves(m', host, id, order[1..]);
      assert forall h :: h in order <==> h == order[0] || h in order[1..];
    }
  }

  /** Whatever the order, sweeping and then storing the claim is what Claimed says. */
  lemma {:induction false} SweepOrderIrrelevant(m: Mapping, host: string, id: string, rewrite: seq<Rule>, order: seq<string>)
    requires IsOrder(m, order) && !InUseByAnother(m, host, id)
    ensures Sweep(m, host, id, order)[host := VirtualHost(id, rewrite)] == Claimed(m, host, id, rewrite)
  {
    SweepRemoves(m, host, id, order);
  }
}
