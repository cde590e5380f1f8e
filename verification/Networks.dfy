/**
 Trusted proxy networks (`_trusted_proxy_semantics` in scripts/poc_contract.py): blocks of addresses as in
 section 3.1 of RFC 4632 and section 2.3 of RFC 4291, and the check that no two of a list overlap.
 */
module Networks {
  import opened Options
  import opened Texts

  function Pow2(n: nat): (r: nat)
    ensures r > 0
  {
    if n == 0 then 1 else 2 * Pow2(n - 1)
  }

  datatype Family = V4 | V6

  function Width(family: Family): nat {
    match family
    case V4 => 32
    case V6 => 128
  }

  /** An address of one family, as a number. */
  datatype Address = Address(family: Family, number: nat)

  datatype Block = Block(family: Family, base: nat, prefix: nat) {
    function Size(): nat
      requires prefix <= Width(family)
    {
      Pow2(Width(family) - prefix)
    }
  }

  /** What strict parsing guarantees: no host bits are set. */
  predicate Aligned(b: Block) {
    && b.prefix <= Width(b.family)
    && b.base % b.Size() == 0 && b.base + b.Size() <= Pow2(Width(b.family))
  }

  type Network = b: Block | Aligned(b) witness WHOLE_V4

  const WHOLE_V4: Block := Block(V4, 0, 0)

  function Last(n: Network): Address {
    Address(n.family, n.base + n.Size() - 1)
  }

  function First(n: Network): Address {
    Address(n.family, n.base)
  }

  /** `address in network`: the address with its host bits masked off is the network's. */
  predicate Contains(n: Network, a: Address) {
    a.family == n.family && a.number - a.number % n.Size() == n.base
  }

  /** `overlaps`: an end of one block lies in the other. */
  predicate Overlaps(n: Network, m: Network) {
    Contains(m, First(n)) || Contains(m, Last(n)) || Contains(n, First(m)) || Contains(n, Last(m))
  }

  // ---------------------------------------------------------------- blocks as sets

  lemma {:induction false} QuotientUnique(a: nat, size: nat, k: nat)
    requires size > 0 && k * size <= a < k * size + size
    ensures a / size == k && a % size == a - k * size
  {
    var q := a / size;
    assert a == q * size + a % size;
    Monotone(q + 1, k, size);
    Monotone(k + 1, q, size);
  }

  lemma {:induction false} Monotone(a: nat, b: nat, size: nat)
    ensures a <= b ==> a * size <= b * size
  {
  }

  /** Masking selects exactly the addresses from the block's first to its last. */
  lemma {:induction false} ContainsRange(n: Network, a: Address)
    ensures Contains(n, a) <==> a.family == n.family && n.base <= a.number < n.base + n.Size()
  {
    var size := n.Size();
    var k := n.base / size;
    assert n.base == k * size;
    if n.base <= a.number < n.base + size {
      QuotientUnique(a.number, size, k);
    }
  }

  /** The endpoint test is the intersection of the two blocks as sets of addresses. */
  lemma {:induction false} OverlapIsIntersection(n: Network, m: Network)
    ensures Overlaps(n, m) <==> exists a :: Contains(n, a) && Contains(m, a)
  {
    EndsInside(n);
    EndsInside(m);
    if a :| Contains(n, a) && Contains(m, a) {
      ContainsRange(n, a);
      ContainsRange(m, a);
      ContainsRange(m, First(n));
      ContainsRange(n, First(m));
    }
  }

  lemma {:induction false} EndsInside(n: Network)
    ensures Contains(n, First(n)) && Contains(n, Last(n))
  {
    ContainsRange(n, First(n));
    ContainsRange(n, Last(n));
  }

  /** The addresses from `lo` up to but not including `hi`. */
  ghost function Interval(family: Family, lo: nat, hi: nat): (r: set<Address>)
    requires lo <= hi
    ensures forall a :: a in r <==> a.family == family && lo <= a.number < hi
    ensures |r| == hi - lo
    decreases hi - lo
  {
    if lo == hi then {} else Interval(family, lo, hi - 1) + {Address(family, hi - 1)}
  }

  /** The addresses of a block. */
  ghost function Addresses(n: Network): set<Address> {
    Interval(n.family, n.base, n.base + n.Size())
  }

  lemma {:induction false} AddressesContained(n: Network, a: Address)
    ensures a in Addresses(n) <==> Contains(n, a)
  {
    ContainsRange(n, a);
  }

  lemma {:induction false} BlockSize(n: Network)
    ensures |Addresses(n)| == Pow2(Width(n.family) - n.prefix)
  {
  }

  /** One half of a block: the prefix is a bit longer. */
  function Half(n: Network, upper: bool): (h: Network)
    requires n.prefix < Width(n.family)
  {
    HalfAligned(n);
    Block(n.family, if upper then n.base + n.Size() / 2 else n.base, n.prefix + 1)
  }

  lemma {:induction false} HalfAligned(n: Network)
    requires n.prefix < Width(n.family)
    ensures n.Size() == 2 * Pow2(Width(n.family) - n.prefix - 1)
    ensures Aligned(Block(n.family, n.base, n.prefix + 1))
    ensures Aligned(Block(n.family, n.base + n.Size() / 2, n.prefix + 1))
  {
    MultipleOfHalf(n.base, Pow2(Width(n.family) - n.prefix - 1));
  }

  lemma {:induction false} MultipleOfHalf(base: nat, half: nat)
    requires half > 0 && base % (2 * half) == 0
    ensures base % half == 0 && (base + half) % half == 0
  {
    var k := base / (2 * half);
    var m := 2 * k;
    assert m * half == k * (2 * half) == base;
    QuotientUnique(base, half, m);
    assert (m + 1) * half == base + half;
    QuotientUnique(base + half, half, m + 1);
  }

  /** A block with the full prefix is one address; any other consists of its two halves, which share none. */
  lemma {:induction false} BlockHalves(n: Network, a: Address)
    ensures n.prefix == Width(n.family) ==> (Contains(n, a) <==> a == Address(n.family, n.base))
    ensures n.prefix < Width(n.family) ==>
      && (Contains(n, a) <==> Contains(Half(n, false), a) || Contains(Half(n, true), a))
      && !(Contains(Half(n, false), a) && Contains(Half(n, true), a))
    ensures Width(V4) == 32 && Width(V6) == 128
  {
    ContainsRange(n, a);
    if n.prefix < Width(n.family) {
      HalfAligned(n);
      ContainsRange(Half(n, false), a);
      ContainsRange(Half(n, true), a);
    }
    hide Contains;
  }

  // ---------------------------------------------------------------- lists

  /** How texts denote networks: strict parsing, and the canonical text of a network. */
  datatype Notation = Notation(parse: Text -> Option<Network>, show: Network -> Text)

  const PERCENT: CodePoint := 0x25

  /** One entry: a canonical text of a network other than all addresses. */
  predicate EntryOk(notation: Notation, cidr: Text) {
    && PERCENT !in cidr
    && notation.parse(cidr).Some?
    && notation.show(notation.parse(cidr).value) == cidr
    && notation.parse(cidr).value.prefix != 0
  }

  predicate ListOk(notation: Notation, cidrs: seq<Text>) {
    && (forall i :: 0 <= i < |cidrs| ==> EntryOk(notation, cidrs[i]))
    && (forall i, j :: 0 <= i < j < |cidrs| ==>
      !Overlaps(notation.parse(cidrs[j]).value, notation.parse(cidrs[i]).value))
  }

  method AnyOverlap(network: Network, previous: seq<Network>) returns (found: bool)
    ensures found <==> exists i :: 0 <= i < |previous| && Overlaps(network, previous[i])
  {
    for i := 0 to |previous|
      invariant forall j :: 0 <= j < i ==> !Overlaps(network, previous[j])
    {
      if Overlaps(network, previous[i]) {
        return true;
      }
    }
    return false;
  }

  /** `_trusted_proxy_semantics`. */
  method TrustedProxies(notation: Notation, cidrs: seq<Text>) returns (r: Option<seq<Network>>)
    ensures r.Some? <==> ListOk(notation, cidrs)
    ensures r.Some? ==>
      |r.value| == |cidrs| && forall i :: 0 <= i < |cidrs| ==> Some(r.value[i]) == notation.parse(cidrs[i])
  {
    hide EntryOk, Overlaps;
    var networks: seq<Network> := [];
    for n := 0 to |cidrs|
      invariant |networks| == n
      invariant forall i :: 0 <= i < n ==> EntryOk(notation, cidrs[i]) && notation.parse(cidrs[i]) == Some(networks[i])
      invariant forall i, j :: 0 <= i < j < n ==> !Overlaps(networks[j], networks[i])
    {
      EntryParses(notation, cidrs[n]);
      if !EntryOk(notation, cidrs[n]) {
        return None;
      }
      var network := notation.parse(cidrs[n]).value;
      var found := AnyOverlap(network, networks);
      if found {
        var i :| 0 <= i < n && Overlaps(network, networks[i]);
        assert Overlaps(notation.parse(cidrs[n]).value, notation.parse(cidrs[i]).value);
        return None;
      }
      networks := networks + [network];
    }
    return Some(networks);
  }

  lemma {:induction false} EntryParses(notation: Notation, cidr: Text)
    ensures EntryOk(notation, cidr) ==> notation.parse(cidr).Some?
  {
  }

  function NetworksOf(notation: Notation, cidrs: seq<Text>): seq<Network>
    requires forall i :: 0 <= i < |cidrs| ==> EntryOk(notation, cidrs[i])
  {
    seq<Network>(|cidrs|, i requires 0 <= i < |cidrs| && EntryOk(notation, cidrs[i]) => notation.parse(cidrs[i]).value)
  }

  /** An address matches at most one entry of an accepted list. */
  lemma {:induction false} MatchesOne(notation: Notation, cidrs: seq<Text>, a: Address, i: nat, j: nat)
    requires ListOk(notation, cidrs) && i < |cidrs| && j < |cidrs|
    requires Contains(NetworksOf(notation, cidrs)[i], a) && Contains(NetworksOf(notation, cidrs)[j], a)
    ensures i == j
  {
    hide Overlaps, Contains;
    var n, m := NetworksOf(notation, cidrs)[i], NetworksOf(notation, cidrs)[j];
    OverlapIsIntersection(n, m);
    OverlapIsIntersection(m, n);
  }

  ghost function Union(networks: seq<Network>): set<Address> {
    if networks == [] then {} else Union(networks[..|networks| - 1]) + Addresses(networks[|networks| - 1])
  }

  function TotalSize(networks: seq<Network>): nat {
    if networks == [] then 0
    else
      TotalSize(networks[..|networks| - 1])
      + Pow2(Width(networks[|networks| - 1].family) - networks[|networks| - 1].prefix)
  }

  lemma {:induction false} InUnion(networks: seq<Network>, a: Address)
    ensures a in Union(networks) <==> exists i :: 0 <= i < |networks| && Contains(networks[i], a)
  {
    hide Contains, Addresses;
    if networks != [] {
      var n := |networks| - 1;
      InUnion(networks[..n], a);
      AddressesContained(networks[n], a);
      assert forall i :: 0 <= i < n ==> networks[..n][i] == networks[i];
    }
  }

  predicate Apart(networks: seq<Network>) {
    forall i, j :: 0 <= i < j < |networks| ==> !Overlaps(networks[j], networks[i])
  }

  lemma {:induction false} UnionSizeOf(networks: seq<Network>)
    requires Apart(networks)
    ensures |Union(networks)| == TotalSize(networks)
  {
    hide Overlaps, Contains, Addresses, Pow2;
    if networks != [] {
      var n := |networks| - 1;
      var front, last := networks[..n], networks[n];
      UnionSizeOf(front);
      BlockSize(last);
      forall a | a in Union(front) ensures a !in Addresses(last) {
        InUnion(front, a);
        AddressesContained(last, a);
        var i :| 0 <= i < n && Contains(front[i], a);
        OverlapIsIntersection(last, front[i]);
      }
      assert Union(front) !! Addresses(last);
    }
  }

  /** An accepted list admits exactly the sum of its entries' sizes: nothing is counted twice. */
  lemma {:induction false} UnionSize(notation: Notation, cidrs: seq<Text>)
    requires ListOk(notation, cidrs)
    ensures |Union(NetworksOf(notation, cidrs))| == TotalSize(NetworksOf(notation, cidrs))
  {
    hide Overlaps, EntryOk, Union, TotalSize;
    UnionSizeOf(NetworksOf(notation, cidrs));
  }

  // ---------------------------------------------------------------- order

  lemma {:induction false} OverlapsSymmetric(n: Network, m: Network)
    ensures Overlaps(n, m) <==> Overlaps(m, n)
  {
  }

  /** A text occurring twice is a network overlapping itself. */
  lemma {:induction false} NoRepeats(notation: Notation, cidrs: seq<Text>, i: nat, j: nat)
    requires ListOk(notation, cidrs) && i < j < |cidrs|
    ensures cidrs[i] != cidrs[j]
  {
  }

  lemma {:induction false} NoRepeatCount(cidrs: seq<Text>, x: Text)
    requires forall i, j :: 0 <= i < j < |cidrs| ==> cidrs[i] != cidrs[j]
    ensures multiset(cidrs)[x] <= 1
  {
    if cidrs != [] {
      var n := |cidrs| - 1;
      NoRepeatCount(cidrs[..n], x);
      assert cidrs == cidrs[..n] + [cidrs[n]];
      assert cidrs[n] !in multiset(cidrs[..n]);
    }
  }

  lemma {:induction false} RepeatCount(cidrs: seq<Text>, i: nat, j: nat)
    requires i < j < |cidrs| && cidrs[i] == cidrs[j]
    ensures multiset(cidrs)[cidrs[i]] >= 2
  {
    assert cidrs == cidrs[..j] + [cidrs[j]] + cidrs[j + 1..];
    assert cidrs[..j][i] in multiset(cidrs[..j]);
  }

  lemma {:induction false} ReorderedOk(notation: Notation, a: seq<Text>, b: seq<Text>)
    requires multiset(a) == multiset(b) && ListOk(notation, a)
    ensures ListOk(notation, b)
  {
    hide EntryOk, Overlaps;
    forall i, j | 0 <= i < j < |a| ensures a[i] != a[j] {
      NoRepeats(notation, a, i, j);
    }
    forall i | 0 <= i < |b| ensures EntryOk(notation, b[i]) {
      var k := PlaceIn(a, b, i);
    }
    forall i, j | 0 <= i < j < |b|
      ensures notation.parse(b[i]).Some? && notation.parse(b[j]).Some?
      ensures !Overlaps(notation.parse(b[j]).value, notation.parse(b[i]).value)
    {
      var k := PlaceIn(a, b, i);
      var l := PlaceIn(a, b, j);
      EntryParses(notation, a[k]);
      EntryParses(notation, a[l]);
      if k == l {
        RepeatCount(b, i, j);
        NoRepeatCount(a, b[i]);
      }
      OverlapsSymmetric(notation.parse(b[j]).value, notation.parse(b[i]).value);
    }
  }

  lemma {:induction false} PlaceIn(a: seq<Text>, b: seq<Text>, i: nat) returns (k: nat)
    requires multiset(a) == multiset(b) && i < |b|
    ensures k < |a| && a[k] == b[i]
  {
    assert b[i] in multiset(b);
    assert b[i] in multiset(a);
    k :| 0 <= k < |a| && a[k] == b[i];
  }

  /** The verdict does not depend on the order of the list. */
  lemma {:induction false} OrderIndependent(notation: Notation, a: seq<Text>, b: seq<Text>)
    requires multiset(a) == multiset(b)
    ensures ListOk(notation, a) <==> ListOk(notation, b)
  {
    hide ListOk;
    if ListOk(notation, a) {
      ReorderedOk(notation, a, b);
    }
    if ListOk(notation, b) {
      ReorderedOk(notation, b, a);
    }
  }

  // ---------------------------------------------------------------- the check in terms of addresses

  /** The block has the addresses from its base on that share its first `prefix` bits, of 32 or 128. */
  predicate Inside(n: Network, a: Address) {
    match n.family
    case V4 => a.family == V4 && n.base <= a.number && (n.prefix <= 32 ==> a.number < n.base + Pow2(32 - n.prefix))
    case V6 => a.family == V6 && n.base <= a.number && (n.prefix <= 128 ==> a.number < n.base + Pow2(128 - n.prefix))
  }

  /** Canonical, without a zone, and not all addresses of its family. */
  predicate Proxy(notation: Notation, cidr: Text) {
    && (forall i :: 0 <= i < |cidr| ==> cidr[i] != '%' as int)
    && notation.parse(cidr).Some? && 1 <= notation.parse(cidr).value.prefix
    && cidr == notation.show(notation.parse(cidr).value)
  }

  ghost predicate Shared(notation: Notation, s: Text, t: Text, a: Address)
    requires notation.parse(s).Some? && notation.parse(t).Some?
  {
    Inside(notation.parse(s).value, a) && Inside(notation.parse(t).value, a)
  }

  /** Each entry is a proxy network, and no address is in two of them. */
  ghost predicate ProxyList(notation: Notation, cidrs: seq<Text>) {
    && (forall i :: 0 <= i < |cidrs| ==> Proxy(notation, cidrs[i]))
    && (forall i, j, a :: 0 <= i < j < |cidrs| ==> !Shared(notation, cidrs[i], cidrs[j], a))
  }

  lemma {:induction false} InsideExactly(n: Network, a: Address)
    ensures Inside(n, a) <==> Contains(n, a)
  {
    ContainsRange(n, a);
    hide Contains;
  }

  lemma {:induction false} ProxyExactly(notation: Notation, cidr: Text)
    ensures Proxy(notation, cidr) <==> EntryOk(notation, cidr)
  {
  }

  lemma {:induction false} SharedExactly(notation: Notation, s: Text, t: Text)
    requires notation.parse(s).Some? && notation.parse(t).Some?
    ensures (exists a :: Shared(notation, s, t, a)) <==> Overlaps(notation.parse(t).value, notation.parse(s).value)
  {
    var n, m := notation.parse(t).value, notation.parse(s).value;
    OverlapIsIntersection(n, m);
    forall a ensures Shared(notation, s, t, a) <==> Contains(n, a) && Contains(m, a) {
      InsideExactly(n, a);
      InsideExactly(m, a);
    }
    hide Contains, Overlaps, Shared;
    if a :| Contains(n, a) && Contains(m, a) {
      assert Shared(notation, s, t, a);
    }
  }

  /** The list is accepted exactly when it consists of proxy networks that share no address. */
  lemma {:induction false} AcceptedExactly(notation: Notation, cidrs: seq<Text>)
    ensures ListOk(notation, cidrs) <==> ProxyList(notation, cidrs)
  {
    hide Shared, Overlaps, Proxy, EntryOk;
    forall i | 0 <= i < |cidrs|
      ensures Proxy(notation, cidrs[i]) <==> EntryOk(notation, cidrs[i])
      ensures Proxy(notation, cidrs[i]) ==> notation.parse(cidrs[i]).Some?
    {
      ProxyExactly(notation, cidrs[i]);
      EntryParses(notation, cidrs[i]);
    }
    forall i, j | 0 <= i < j < |cidrs| && notation.parse(cidrs[i]).Some? && notation.parse(cidrs[j]).Some?
      ensures (exists a :: Shared(notation, cidrs[i], cidrs[j], a)) <==>
              Overlaps(notation.parse(cidrs[j]).value, notation.parse(cidrs[i]).value)
    {
      SharedExactly(notation, cidrs[i], cidrs[j]);
    }
  }
}
