/** Types shared by the other modules. */
module Base {

  datatype Option<+T> = None | Some(value: T)

  /** The identities of sessions and of control connections. */
  type SessionId = nat
  type ControlId = nat

  /** Connection states, on the client and as the server records them. */
  datatype ClientState = Unknown | Started | Connecting | Connected | Disconnected | Closed

  /** The value a map holds for a key, if any. */
  function Get<K, V>(m: map<K, V>, k: K): Option<V> {
    if k in m then Some(m[k]) else None
  }

  // ---------------------------------------------------------------------------------------------
  // The orders in which a range loop may yield the keys of a map

  ghost predicate IsOrder<V>(m: map<string, V>, order: seq<string>) {
    && (forall k :: k in order <==> k in m)
    && (forall i, j :: 0 <= i < j < |order| ==> order[i] != order[j])
  }

  lemma AnyOrder<V>(m: map<string, V>) returns (order: seq<string>)
    ensures IsOrder(m, order)
    decreases |m|
  {
    if m == map[] {
      order := [];
    } else {
      var first :| first in m;
      assert m.Keys == (m - {first}).Keys + {first};
      var rest := AnyOrder(m - {first});
      order := Prepended(m, first, rest);
    }
  }

  lemma Prepended<V>(m: map<string, V>, first: string, rest: seq<string>) returns (order: seq<string>)
    requires first in m && IsOrder(m - {first}, rest)
    ensures IsOrder(m, order) && order == [first] + rest
  {
    order := [first] + rest;
    assert forall k :: k in order <==> k == first || k in rest;
    forall i, j | 0 <= i < j < |order| ensures order[i] != order[j] {
      assert order[j] == rest[j - 1] && rest[j - 1] in rest;
    }
  }

  lemma OrderStartingWith<V>(m: map<string, V>, first: string) returns (order: seq<string>)
    requires first in m
    ensures IsOrder(m, order) && order != [] && order[0] == first
  {
    var rest := AnyOrder(m - {first});
    order := Prepended(m, first, rest);
  }

  lemma OrderEndingWith<V>(m: map<string, V>, last: string) returns (order: seq<string>)
    requires last in m
    ensures IsOrder(m, order) && order != [] && order[|order| - 1] == last
  {
    var rest := AnyOrder(m - {last});
    order := rest + [last];
    assert forall i :: 0 <= i < |rest| ==> order[i] == rest[i] && rest[i] in rest;
    assert forall k :: k in order <==> k in rest || k == last;
  }
}
