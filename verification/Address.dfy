/** Addresses: construction from network bytes, the way back, ordering and hashing. */
module Address {
  import opened Basics
  import opened ByteOrder

  // ---------------------------------------------------------------------------------------------
  // ipv4

  /** `ipv4{in_addr*}`: copy the four bytes into the integer, then convert in place. */
  method Ipv4FromNetwork(big: bool, b: seq<Byte>) returns (addr: nat)
    requires |b| == 4
    ensures addr == BigEndian(b)
  {
    addr := Load(big, b);
    addr := BigToHost(big, addr, 4);
    NetworkToHost(big, b);
  }

  /** The bytes of `to_in4().s_addr`. */
  function ToIn4(big: bool, addr: nat): seq<Byte> {
    Store(big, HostToBig(big, addr, 4), 4)
  }

  /** The octet constructor; the shifted octets do not overlap, so or-ing them is adding them. */
  function Octets(a: Byte, b: Byte, c: Byte, d: Byte): nat {
    a * 0x100_0000 + b * 0x1_0000 + c * 0x100 + d
  }

  /** Octets and network bytes agree, and the bytes come back unchanged, on every machine. */
  lemma Ipv4Agrees(big: bool, a: Byte, b: Byte, c: Byte, d: Byte)
    ensures BigEndian([a, b, c, d]) == Octets(a, b, c, d)
    ensures ToIn4(big, Octets(a, b, c, d)) == [a, b, c, d]
  {
    var s := [a, b, c, d];
    TwoBytes(a, b);
    assert [a, b, c][..2] == [a, b];
    assert BigEndian([a, b, c]) == BigEndian([a, b]) * 256 + c;
    assert s[..3] == [a, b, c];
    NetworkToHost(big, s);
    NetworkRoundTrip(big, s);
  }

  lemma TwoBytes(a: Byte, b: Byte)
    ensures BigEndian([a, b]) == a as int * 256 + b as int
    ensures Store(false, BigEndian([a, b]), 2) == [b, a]
  {
    assert [a][..0] == [];
    assert BigEndian([a]) == a;
    assert [a, b][..1] == [a];
    var v := BigEndian([a, b]);
    assert v % 256 == b && v / 256 == a;
    assert Store(false, a, 1) == [a] + Store(false, 0, 0);
  }

  // ---------------------------------------------------------------------------------------------
  // ipv6

  function Pair(b: seq<Byte>, i: nat): seq<Byte>
    requires 2 * i + 2 <= |b|
  {
    b[2 * i..2 * i + 2]
  }

  /** `ipv6{in6_addr*}`: copy, then convert each of the eight groups in place. */
  method Ipv6FromNetwork(big: bool, b: seq<Byte>) returns (addr: array<nat>)
    requires |b| == 16
    ensures fresh(addr) && addr.Length == 8
    ensures forall i :: 0 <= i < 8 ==> addr[i] == BigEndian(Pair(b, i)) == b[2 * i] as int * 256 + b[2 * i + 1]
  {
    addr := new nat[8](i requires 0 <= i < 8 => Load(big, Pair(b, i)));
    for i := 0 to 8
      invariant forall k :: 0 <= k < i ==> addr[k] == BigEndian(Pair(b, k))
      invariant forall k :: i <= k < 8 ==> addr[k] == Load(big, Pair(b, k))
    {
      NetworkToHost(big, Pair(b, i));
      addr[i] := BigToHost(big, addr[i], 2);
    }
    forall i | 0 <= i < 8
      ensures BigEndian(Pair(b, i)) == b[2 * i] as int * 256 + b[2 * i + 1]
    {
      assert Pair(b, i) == [b[2 * i], b[2 * i + 1]];
      TwoBytes(b[2 * i], b[2 * i + 1]);
    }
  }

  /** The bytes in memory of the first `n` groups. */
  function Memory(big: bool, groups: seq<nat>): seq<Byte> {
    if groups == [] then [] else Store(big, groups[0], 2) + Memory(big, groups[1..])
  }

  /** What `ipv6::to_string` hands to `inet_ntop`: a copy, converted group by group in place. */
  method Ipv6PrinterBytes(big: bool, addr: array<nat>) returns (bytes: seq<Byte>)
    requires addr.Length == 8 && forall i :: 0 <= i < 8 ==> addr[i] < 0x1_0000
    ensures bytes == Memory(true, addr[..])
  {
    var temp := new nat[8](i requires 0 <= i < 8 reads addr => addr[i]);
    for i := 0 to 8
      invariant forall k :: 0 <= k < i ==> temp[k] == HostToBig(big, addr[k], 2)
      invariant forall k :: i <= k < 8 ==> temp[k] == addr[k]
    {
      temp[i] := HostToBig(big, temp[i], 2);
    }
    bytes := Memory(big, temp[..]);
    MemoryConverted(big, addr[..], temp[..]);
  }

  lemma {:induction false} MemoryConverted(big: bool, addr: seq<nat>, temp: seq<nat>)
    requires |temp| == |addr|
    requires forall i :: 0 <= i < |addr| ==> addr[i] < 0x1_0000 && temp[i] == HostToBig(big, addr[i], 2)
    ensures Memory(big, temp) == Memory(true, addr)
  {
    if addr != [] {
      PowTwo();
      HostToNetwork(big, addr[0], 2);
      MemoryConverted(big, addr[1..], temp[1..]);
    }
  }

  lemma PowTwo()
    ensures Pow(2) == 0x1_0000
  {
  }

  function Groups(b: seq<Byte>): seq<nat>
    requires |b| % 2 == 0
  {
    if b == [] then [] else [BigEndian(b[..2])] + Groups(b[2..])
  }

  lemma PairTail(b: seq<Byte>, i: nat)
    requires i > 0 && 2 * i + 2 <= |b|
    ensures Pair(b, i) == Pair(b[2..], i - 1)
  {
  }

  /** Groups and network bytes determine each other. */
  lemma {:induction false} GroupsRoundTrip(b: seq<Byte>)
    requires |b| % 2 == 0
    ensures Memory(true, Groups(b)) == b
    ensures |Groups(b)| == |b| / 2
    ensures forall i :: 0 <= i < |b| / 2 ==> Groups(b)[i] == BigEndian(Pair(b, i)) < 0x1_0000
  {
    if b != [] {
      GroupsRoundTrip(b[2..]);
      LoadStore(true, b[..2]);
      assert Memory(true, Groups(b)) == b[..2] + b[2..] by {
        assert Groups(b)[1..] == Groups(b[2..]);
      }
      forall i | 0 <= i < |b| / 2
        ensures Groups(b)[i] == BigEndian(Pair(b, i)) < 0x1_0000
      {
        if i > 0 {
          PairTail(b, i);
        } else {
          BigEndianFront(b[..2]);
          PowTwo();
        }
      }
    }
  }

  /** Whatever the machine, the printer gets the sixteen bytes the address was made from. */
  method Ipv6PrintsItsBytes(big: bool, b: seq<Byte>) returns (bytes: seq<Byte>)
    requires |b| == 16
    ensures bytes == b
  {
    GroupsRoundTrip(b);
    var addr := Ipv6FromNetwork(big, b);
    assert addr[..] == Groups(b);
    bytes := Ipv6PrinterBytes(big, addr);
  }

  /** `ipv6::to_in6` copies the host-order groups and then "converts" the first eight bytes, one at a time, which
  changes nothing. */
  function ToIn6(big: bool, addr: seq<nat>): seq<Byte> {
    var mem := Memory(big, addr);
    seq(|mem|, i requires 0 <= i < |mem| => (if i < 8 then BigToHost(big, mem[i], 1) else mem[i]) as Byte)
  }

  /** So it gives back the network bytes only on a big-endian machine, or when both bytes of every group are equal. */
  lemma ToIn6RoundTrip(big: bool, b: seq<Byte>)
    requires |b| % 2 == 0
    ensures ToIn6(big, Groups(b)) == b <==>
      big || forall i :: 0 <= i < |b| / 2 ==> b[2 * i] == b[2 * i + 1]
  {
    GroupsRoundTrip(b);
    ToIn6IsCopy(big, Groups(b));
    if !big {
      LittleMemory(b);
      SwappedEqual(b, Memory(false, Groups(b)));
    }
  }

  /** The address 2001:db8::1 on a little-endian machine. */
  lemma ToIn6Swaps(b: seq<Byte>)
    requires b == [0x20, 0x01, 0x0d, 0xb8, 0, 0, 0, 0, 0, 0, 0, 0, 0, 0, 0, 1]
    ensures ToIn6(false, Groups(b)) != b
  {
    ToIn6RoundTrip(false, b);
    assert b[2 * 0] != b[2 * 0 + 1];
  }

  lemma ToIn6IsCopy(big: bool, addr: seq<nat>)
    ensures ToIn6(big, addr) == Memory(big, addr)
  {
  }

  lemma SwappedEqual(b: seq<Byte>, m: seq<Byte>)
    requires |m| == |b| && |b| % 2 == 0
    requires forall i :: 0 <= i < |b| / 2 ==> m[2 * i] == b[2 * i + 1] && m[2 * i + 1] == b[2 * i]
    ensures m == b <==> forall i :: 0 <= i < |b| / 2 ==> b[2 * i] == b[2 * i + 1]
  {
    if m == b {
      forall i | 0 <= i < |b| / 2
        ensures b[2 * i] == b[2 * i + 1]
      {
        assert m[2 * i] == b[2 * i + 1];
      }
    }
    if forall i :: 0 <= i < |b| / 2 ==> b[2 * i] == b[2 * i + 1] {
      forall k | 0 <= k < |b|
        ensures m[k] == b[k]
      {
        assert k == 2 * (k / 2) || k == 2 * (k / 2) + 1;
        assert b[2 * (k / 2)] == b[2 * (k / 2) + 1];
      }
    }
  }

  lemma {:induction false} LittleMemory(b: seq<Byte>)
    requires |b| % 2 == 0
    ensures |Memory(false, Groups(b))| == |b|
    ensures forall i :: 0 <= i < |b| / 2 ==>
      Memory(false, Groups(b))[2 * i] == b[2 * i + 1] && Memory(false, Groups(b))[2 * i + 1] == b[2 * i]
  {
    if b != [] {
      LittleMemory(b[2..]);
      var m := Memory(false, Groups(b));
      assert Groups(b)[1..] == Groups(b[2..]);
      assert b[..2] == [b[0], b[1]];
      TwoBytes(b[0], b[1]);
      assert m == [b[1], b[0]] + Memory(false, Groups(b[2..]));
      forall i | 0 < i < |b| / 2
        ensures m[2 * i] == b[2 * i + 1] && m[2 * i + 1] == b[2 * i]
      {
        assert m[2 * i] == Memory(false, Groups(b[2..]))[2 * (i - 1)];
        assert m[2 * i + 1] == Memory(false, Groups(b[2..]))[2 * (i - 1) + 1];
      }
    }
  }

  // ---------------------------------------------------------------------------------------------
  // Ordering

  type Group = x: int | 0 <= x < 0x1_0000

  type Groups8 = g: seq<Group> | |g| == 8 witness [0, 0, 0, 0, 0, 0, 0, 0]

  datatype Ip = V4(addr: nat) | V6(groups: Groups8)

  datatype IpAddress = IpAddress(ip: Ip, port: nat)

  datatype Order = Less | Equal | Greater

  function Flip(o: Order): Order {
    match o case Less => Greater case Equal => Equal case Greater => Less
  }

  function CompareInt(x: int, y: int): Order {
    if x < y then Less else if x == y then Equal else Greater
  }

  /** Of sequences of the same length. */
  function CompareSeq(x: seq<Group>, y: seq<Group>): Order
    requires |x| == |y|
  {
    if x == [] then Equal
    else if x[0] != y[0] then CompareInt(x[0], y[0])
    else CompareSeq(x[1..], y[1..])
  }

  /** `std::variant` compares the alternatives first. */
  function CompareIp(x: Ip, y: Ip): Order {
    match (x, y)
    case (V4(a), V4(b)) => CompareInt(a, b)
    case (V4(_), V6(_)) => Less
    case (V6(_), V4(_)) => Greater
    case (V6(a), V6(b)) => CompareSeq(a, b)
  }

  /** `std::tie(_ip, _port) <=> ...` */
  function Compare(x: IpAddress, y: IpAddress): Order {
    var o := CompareIp(x.ip, y.ip);
    if o.Equal? then CompareInt(x.port, y.port) else o
  }

  lemma {:induction false} CompareSeqLaws(x: seq<Group>, y: seq<Group>)
    requires |x| == |y|
    ensures CompareSeq(x, y).Equal? <==> x == y
    ensures CompareSeq(y, x) == Flip(CompareSeq(x, y))
  {
    if x != [] {
      CompareSeqLaws(x[1..], y[1..]);
      assert x == [x[0]] + x[1..] && y == [y[0]] + y[1..];
    }
  }

  lemma {:induction false} CompareSeqTrans(x: seq<Group>, y: seq<Group>, z: seq<Group>)
    requires |x| == |y| == |z| && CompareSeq(x, y).Less? && CompareSeq(y, z).Less?
    ensures CompareSeq(x, z).Less?
  {
    if x != [] && x[0] == y[0] == z[0] {
      CompareSeqTrans(x[1..], y[1..], z[1..]);
    }
  }

  /** Exactly one of less, equal and greater holds, and equal means equal. */
  lemma CompareIsTotal(x: IpAddress, y: IpAddress)
    ensures Compare(x, y).Equal? <==> x == y
    ensures Compare(y, x) == Flip(Compare(x, y))
  {
    if x.ip.V6? && y.ip.V6? {
      CompareSeqLaws(x.ip.groups, y.ip.groups);
    }
  }

  lemma CompareIsTransitive(x: IpAddress, y: IpAddress, z: IpAddress)
    requires Compare(x, y).Less? && Compare(y, z).Less?
    ensures Compare(x, z).Less?
  {
    if x.ip.V6? && y.ip.V6? && z.ip.V6? {
      var a, b, c := x.ip.groups, y.ip.groups, z.ip.groups;
      CompareSeqLaws(a, b);
      CompareSeqLaws(b, c);
      CompareSeqLaws(a, c);
      if CompareSeq(a, b).Less? && CompareSeq(b, c).Less? {
        CompareSeqTrans(a, b, c);
      }
    }
  }

  /** Addresses compare as numbers, IPv4 comes first, and the port decides only between equal addresses. */
  lemma CompareMeans(x: IpAddress, y: IpAddress)
    ensures x.ip.V4? && y.ip.V4? && x.ip.addr != y.ip.addr ==> (Compare(x, y).Less? <==> x.ip.addr < y.ip.addr)
    ensures x.ip.V4? && y.ip.V6? ==> Compare(x, y).Less?
    ensures x.ip == y.ip ==> (Compare(x, y).Less? <==> x.port < y.port)
    ensures x.ip != y.ip ==> Compare(x, y) == Compare(x.(port := y.port), y)
  {
    CompareIsTotal(x.(port := 0), y.(port := 0));
  }

  /** The first group in which two addresses differ decides. */
  lemma {:induction false} FirstDifferenceDecides(x: seq<Group>, y: seq<Group>, i: nat)
    requires |x| == |y| && i < |x| && x[..i] == y[..i] && x[i] != y[i]
    ensures CompareSeq(x, y) == if x[i] < y[i] then Less else Greater
  {
    if i > 0 {
      assert x[0] == x[..i][0] && y[0] == y[..i][0];
      assert x[1..][..i - 1] == x[..i][1..] && y[1..][..i - 1] == y[..i][1..];
      FirstDifferenceDecides(x[1..], y[1..], i - 1);
    }
  }

  // ---------------------------------------------------------------------------------------------
  // Hashing

  /** `size_t` of 64 bits; sums and shifts wrap around. */
  type Size = x: nat | x < 0x1_0000_0000_0000_0000

  const SIZES: nat := 0x1_0000_0000_0000_0000
  const INVERSE_GOLDEN_RATIO: Size := 0x9e37_79b9_7f4a_7c15

  function Xor(a: nat, b: nat): nat
    decreases a + b
  {
    if a == 0 && b == 0 then 0 else (if a % 2 == b % 2 then 0 else 1) + 2 * Xor(a / 2, b / 2)
  }

  function Pow2(n: nat): nat {
    if n == 0 then 1 else 2 * Pow2(n - 1)
  }

  lemma {:induction false} XorFits(a: nat, b: nat, n: nat)
    requires a < Pow2(n) && b < Pow2(n)
    ensures Xor(a, b) < Pow2(n)
    decreases n
  {
    if n > 0 {
      XorFits(a / 2, b / 2, n - 1);
    }
  }

  lemma {:induction false} XorUndone(a: nat, b: nat)
    ensures Xor(a, Xor(a, b)) == b
    decreases a + b
  {
    if a != 0 || b != 0 {
      XorUndone(a / 2, b / 2);
      var x := Xor(a, b);
      assert x / 2 == Xor(a / 2, b / 2) && (x % 2 == 0 <==> a % 2 == b % 2);
    }
  }

  lemma SizeIsPow2()
    ensures Pow2(64) == SIZES
  {
    SmallPow2();
    Doubling(8);
    Doubling(16);
    Doubling(32);
  }

  lemma SmallPow2()
    ensures Pow2(8) == 256
  {
    assert Pow2(4) == 16;
    Doubling(4);
  }

  lemma {:induction false} Product(m: nat, n: nat)
    ensures Pow2(m + n) == Pow2(m) * Pow2(n)
    decreases m
  {
    if m > 0 {
      Product(m - 1, n);
      Twice(Pow2(m - 1), Pow2(n));
    }
  }

  lemma Twice(p: nat, q: nat)
    ensures 2 * (p * q) == (2 * p) * q
  {
  }

  lemma Doubling(n: nat)
    ensures Pow2(n + n) == Pow2(n) * Pow2(n)
  {
    Product(n, n);
  }

  /** One turn of the accumulator; `k` is the library's hash of a 16-bit integer. */
  function Stir(h: Size, k: Size): Size {
    var sum := (k + INVERSE_GOLDEN_RATIO + h * 128 % SIZES + h / 8) % SIZES;
    SizeIsPow2();
    XorFits(h, sum, 64);
    Xor(h, sum)
  }

  function HashGroups(h: Size, groups: seq<Group>, h16: Group -> Size): Size
    decreases |groups|
  {
    if groups == [] then h else HashGroups(Stir(h, h16(groups[0])), groups[1..], h16)
  }

  /** `turns` are the values of an accumulator that takes one group after the other. */
  ghost predicate Accumulates(turns: seq<Size>, groups: seq<Group>, h16: Group -> Size) {
    && |turns| == |groups| + 1
    && forall i :: 0 <= i < |groups| ==> turns[i + 1] == Xor(turns[i],
         (h16(groups[i]) + 0x9e37_79b9_7f4a_7c15 + turns[i] * 128 % SIZES + turns[i] / 8) % SIZES)
  }

  method HashIpv6(groups: Groups8, h16: Group -> Size) returns (h: Size)
    ensures exists turns :: Accumulates(turns, groups, h16) && turns[0] == 0 && turns[8] == h
    ensures h == HashGroups(0, groups, h16)
  {
    h := 0;
    ghost var turns: seq<Size> := [h];
    for i := 0 to 8
      invariant |turns| == i + 1 && turns[0] == 0 && turns[i] == h
      invariant forall k :: 0 <= k < i ==> turns[k + 1] == Stir(turns[k], h16(groups[k]))
    {
      h := Stir(h, h16(groups[i]));
      turns := turns + [h];
    }
    assert Accumulates(turns, groups, h16);
    HashIsWhereItEnds(turns, groups, h16);
  }

  /** Such a sequence is determined by where it starts, and the hash is where it ends. */
  lemma {:induction false} HashIsWhereItEnds(turns: seq<Size>, groups: seq<Group>, h16: Group -> Size)
    requires Accumulates(turns, groups, h16)
    ensures HashGroups(turns[0], groups, h16) == turns[|groups|]
    decreases |groups|
  {
    if groups != [] {
      forall i | 0 <= i < |groups| - 1
        ensures turns[1..][i + 1] == Stir(turns[1..][i], h16(groups[1..][i]))
      {
        assert turns[i + 2] == Stir(turns[i + 1], h16(groups[i + 1]));
      }
      HashIsWhereItEnds(turns[1..], groups[1..], h16);
    }
  }

  lemma {:induction false} HashSnoc(h: Size, groups: seq<Group>, v: Group, h16: Group -> Size)
    ensures HashGroups(h, groups + [v], h16) == Stir(HashGroups(h, groups, h16), h16(v))
    decreases |groups|
  {
    if groups == [] {
      assert groups + [v] == [v] && [v][1..] == [];
    } else {
      assert (groups + [v])[1..] == groups[1..] + [v];
      HashSnoc(Stir(h, h16(groups[0])), groups[1..], v, h16);
    }
  }

  /** No turn forgets what it takes in. */
  lemma StirIsInjective(h: Size, a: Size, b: Size)
    requires Stir(h, a) == Stir(h, b)
    ensures a == b
  {
    var noise := INVERSE_GOLDEN_RATIO + h * 128 % SIZES + h / 8;
    XorUndone(h, (a + noise) % SIZES);
    XorUndone(h, (b + noise) % SIZES);
    SumsDiffer(a, b, noise);
  }

  lemma SumsDiffer(a: Size, b: Size, noise: nat)
    requires (a + noise) % SIZES == (b + noise) % SIZES
    ensures a == b
  {
    var qa, qb := (a + noise) / SIZES, (b + noise) / SIZES;
    assert a - b == (qa - qb) * SIZES;
  }

  /** The hash looks at the address alone; `index` is how the library folds in which alternative it is. */
  function Hash(x: IpAddress, h32: nat -> Size, h16: Group -> Size, index: (bool, Size) -> Size): Size {
    match x.ip
    case V4(addr) => index(true, h32(addr))
    case V6(groups) => index(false, HashGroups(0, groups, h16))
  }

  lemma HashRespectsEquality(
    x: IpAddress, y: IpAddress, h32: nat -> Size, h16: Group -> Size, index: (bool, Size) -> Size)
    requires CompareIp(x.ip, y.ip).Equal?
    ensures Hash(x, h32, h16, index) == Hash(y, h32, h16, index)
    ensures Compare(x, y).Equal? <==> x.port == y.port
  {
    CompareIsTotal(x.(port := 0), y.(port := 0));
  }

  /** As far as the library's hashes tell their arguments apart, so does this one: for two IPv4 addresses, and for two
  IPv6 addresses that agree but for the last group. */
  lemma HashTellsApart(x: IpAddress, y: IpAddress, h32: nat -> Size, h16: Group -> Size, index: (bool, Size) -> Size)
    requires forall v, a, b :: index(v, a) == index(v, b) ==> a == b
    ensures x.ip.V4? && y.ip.V4? && h32(x.ip.addr) != h32(y.ip.addr) ==>
      Hash(x, h32, h16, index) != Hash(y, h32, h16, index)
    ensures x.ip.V6? && y.ip.V6? && x.ip.groups[..7] == y.ip.groups[..7] ==>
      (Hash(x, h32, h16, index) == Hash(y, h32, h16, index) <==> h16(x.ip.groups[7]) == h16(y.ip.groups[7]))
  {
    if x.ip.V6? && y.ip.V6? && x.ip.groups[..7] == y.ip.groups[..7] {
      var first, v, w := x.ip.groups[..7], x.ip.groups[7], y.ip.groups[7];
      assert x.ip.groups == first + [v] && y.ip.groups == first + [w];
      HashSnoc(0, first, v, h16);
      HashSnoc(0, first, w, h16);
      if Stir(HashGroups(0, first, h16), h16(v)) == Stir(HashGroups(0, first, h16), h16(w)) {
        StirIsInjective(HashGroups(0, first, h16), h16(v), h16(w));
      }
    }
  }
}
