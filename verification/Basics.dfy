/** Numbers, keys and ordered iteration shared by the other modules. */
module Basics {

  datatype Option<+T> = None | Some(value: T)

  const U16: int := 0x1_0000
  const U32: int := 0x1_0000_0000
  const U64: int := 0x1_0000_0000_0000_0000

  type byte = x: int | 0 <= x < 0x100
  type u16 = x: int | 0 <= x < U16
  type u32 = x: int | 0 <= x < U32
  type u64 = x: int | 0 <= x < U64

  // A WireGuard key: 32 bytes compared lexicographically, hence a number.
  type Pubkey = nat

  function Lookup<K, V>(m: map<K, V>, k: K): (r: Option<V>)
    ensures r.None? <==> k !in m
    ensures k in m ==> r == Some(m[k])
  {
    if k in m then Some(m[k]) else None
  }

  lemma {:induction false} HasLeast(s: set<nat>)
    requires s != {}
    ensures exists m :: m in s && forall x | x in s :: m <= x
  {
    var y :| y in s;
    var rest := s - {y};
    if rest == {} {
      assert forall x | x in s :: y <= x by {
        forall x | x in s ensures y <= x { assert x !in rest; }
      }
    } else {
      HasLeast(rest);
      var l :| l in rest && forall x | x in rest :: l <= x;
      var m := if y < l then y else l;
      assert m in s && forall x | x in s :: m <= x by {
        forall x | x in s ensures m <= x { if x != y { assert x in rest; } }
      }
    }
  }

  function Least(s: set<nat>): (m: nat)
    requires s != {}
    ensures m in s && forall x | x in s :: m <= x
  {
    HasLeast(s);
    var m :| m in s && forall x | x in s :: m <= x;
    m
  }

  /** The iteration order of a BTreeMap or BTreeSet with these keys. */
  function Ascending(s: set<nat>): (r: seq<nat>)
    ensures forall x :: x in r <==> x in s
    ensures forall i, j | 0 <= i < j < |r| :: r[i] < r[j]
  {
    if s == {} then [] else
      var m := Least(s);
      var rest := Ascending(s - {m});
      assert forall x | x in rest :: x in s - {m};
      assert forall j | 0 <= j < |rest| :: rest[j] in rest;
      [m] + rest
  }

  /** The same for port numbers. */
  function AscendingPorts(s: set<u16>): (r: seq<u16>)
    ensures forall x :: x in r <==> x in s
    ensures forall i, j | 0 <= i < j < |r| :: r[i] < r[j]
  {
    var r := Ascending(s);
    assert forall i | 0 <= i < |r| :: r[i] in r && r[i] in s;
    r
  }

  /** The sum of the values of a finite map. */
  ghost function Sum(m: map<Pubkey, nat>): nat
  {
    if m == map[] then 0 else
      var k := Least(m.Keys);
      m[k] + Sum(m - {k})
  }

  lemma {:induction false} SumWithout(m: map<Pubkey, nat>, k: Pubkey)
    requires k in m
    ensures Sum(m) == m[k] + Sum(m - {k})
    decreases |m|
  {
    var l := Least(m.Keys);
    if l != k {
      var rest := m - {l};
      assert |rest.Keys| < |m.Keys| by { assert rest.Keys == m.Keys - {l}; }
      SumWithout(rest, k);
      var other := m - {k};
      assert other.Keys == m.Keys - {k};
      assert l in other;
      assert Least(other.Keys) == l;
      assert rest - {k} == other - {l};
    }
  }

  lemma SumUpdated(m: map<Pubkey, nat>, k: Pubkey, v: nat)
    ensures Sum(m[k := v]) == Sum(m) + v - (if k in m then m[k] else 0)
  {
    var n := m[k := v];
    SumWithout(n, k);
    if k in m {
      SumWithout(m, k);
      assert n - {k} == m - {k};
    } else {
      assert n - {k} == m;
    }
  }
}
