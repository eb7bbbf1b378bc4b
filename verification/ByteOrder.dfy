/** Byte order: the same address, whatever the endianness of the machine.

`big` says whether the machine is big-endian.  `Load` and `Store` are what a copy between memory and an integer does on
such a machine; `Swap` is the builtin byte swap of a given width.
*/
module ByteOrder {
  import opened Basics

  function Pow(n: nat): (p: nat)
    ensures p > 0
  {
    if n == 0 then 1 else 256 * Pow(n - 1)
  }

  /** The value of a sequence of bytes, most significant first. */
  function BigEndian(b: seq<Byte>): nat {
    if b == [] then 0 else BigEndian(b[..|b| - 1]) * 256 + b[|b| - 1]
  }

  /** And least significant first. */
  function LittleEndian(b: seq<Byte>): nat {
    if b == [] then 0 else b[0] + 256 * LittleEndian(b[1..])
  }

  function Load(big: bool, b: seq<Byte>): nat {
    if big then BigEndian(b) else LittleEndian(b)
  }

  function Store(big: bool, v: nat, n: nat): seq<Byte> {
    if n == 0 then []
    else if big then Store(big, v / 256, n - 1) + [v % 256]
    else [v % 256] + Store(big, v / 256, n - 1)
  }

  /** `bswap` of an integer of `n` bytes: the lowest byte becomes the highest. */
  function Swap(v: nat, n: nat): nat {
    if n == 0 then 0 else v % 256 * Pow(n - 1) + Swap(v / 256, n - 1)
  }

  /** `byteswap_inplace`: there is no case for one byte. */
  function ByteSwap(v: nat, n: nat): nat {
    if n == 2 || n == 4 || n == 8 then Swap(v, n) else v
  }

  function BigToHost(big: bool, v: nat, n: nat): nat {
    if big then v else ByteSwap(v, n)
  }

  function HostToBig(big: bool, v: nat, n: nat): nat {
    if big then v else ByteSwap(v, n)
  }

  predicate Width(n: nat) {
    n == 1 || n == 2 || n == 4 || n == 8
  }

  // ---------------------------------------------------------------------------------------------
  // Laws

  lemma {:induction false} BigEndianFront(b: seq<Byte>)
    requires b != []
    ensures BigEndian(b) == b[0] * Pow(|b| - 1) + BigEndian(b[1..])
    ensures BigEndian(b) < Pow(|b|)
  {
    if |b| == 1 {
      assert b[..0] == [] && b[1..] == [];
    } else {
      var c, d := b[..|b| - 1], b[1..];
      BigEndianFront(c);
      assert c[1..] == d[..|d| - 1];
      assert b[0] * Pow(|c| - 1) * 256 == b[0] * Pow(|b| - 1);
    }
  }

  /** Swapping what a little-endian machine loads gives the big-endian value. */
  lemma {:induction false} SwapGivesBigEndian(b: seq<Byte>)
    ensures Swap(LittleEndian(b), |b|) == BigEndian(b)
  {
    if b != [] {
      SwapGivesBigEndian(b[1..]);
      BigEndianFront(b);
      var v := LittleEndian(b);
      assert v % 256 == b[0] && v / 256 == LittleEndian(b[1..]);
    }
  }

  lemma {:induction false} LoadStore(big: bool, b: seq<Byte>)
    ensures Store(big, Load(big, b), |b|) == b
  {
    if b != [] {
      var v := Load(big, b);
      if big {
        LoadStore(big, b[..|b| - 1]);
      } else {
        LoadStore(big, b[1..]);
      }
    }
  }

  /** And the other way round: a little-endian machine that swaps and stores writes the bytes most significant
  first. */
  lemma {:induction false} SwapStores(v: nat, n: nat)
    requires v < Pow(n)
    ensures Store(false, Swap(v, n), n) == Store(true, v, n)
    ensures Swap(v, n) < Pow(n)
    decreases n
  {
    if n > 0 {
      var b := Store(true, v, n);
      StoreLoads(true, v, n);
      SwapReverses(v, n);
      LoadStore(false, b);
      LittleBound(b);
    }
  }

  lemma {:induction false} StoreLoads(big: bool, v: nat, n: nat)
    requires v < Pow(n)
    ensures |Store(big, v, n)| == n && Load(big, Store(big, v, n)) == v
  {
    if n > 0 {
      StoreLoads(big, v / 256, n - 1);
      var s := Store(big, v, n);
      if big {
        assert s[..|s| - 1] == Store(big, v / 256, n - 1);
      } else {
        assert s[1..] == Store(big, v / 256, n - 1);
      }
    }
  }

  lemma {:induction false} LittleBound(b: seq<Byte>)
    ensures LittleEndian(b) < Pow(|b|)
  {
    if b != [] {
      LittleBound(b[1..]);
    }
  }

  lemma {:induction false} SwapReverses(v: nat, n: nat)
    requires v < Pow(n)
    ensures Swap(v, n) == LittleEndian(Store(true, v, n))
  {
    if n > 0 {
      SwapReverses(v / 256, n - 1);
      LittleEndianSnoc(Store(true, v / 256, n - 1), v % 256);
      StoreLoads(true, v / 256, n - 1);
    }
  }

  lemma {:induction false} LittleEndianSnoc(b: seq<Byte>, c: Byte)
    ensures LittleEndian(b + [c]) == LittleEndian(b) + c * Pow(|b|)
  {
    if b == [] {
      assert b + [c] == [c];
      assert [c][1..] == [];
    } else {
      assert (b + [c])[1..] == b[1..] + [c];
      LittleEndianSnoc(b[1..], c);
      assert 256 * (c * Pow(|b| - 1)) == c * Pow(|b|);
    }
  }

  // ---------------------------------------------------------------------------------------------
  // The theorems

  /** Network bytes give the same host integer on every machine, namely their big-endian value. */
  lemma NetworkToHost(big: bool, b: seq<Byte>)
    requires Width(|b|)
    ensures BigToHost(big, Load(big, b), |b|) == BigEndian(b)
  {
    SwapGivesBigEndian(b);
    if |b| == 1 {
      assert b[1..] == [] && b[..0] == [];
    }
  }

  /** And a host integer is written most significant byte first on every machine. */
  lemma HostToNetwork(big: bool, v: nat, n: nat)
    requires Width(n) && v < Pow(n)
    ensures Store(big, HostToBig(big, v, n), n) == Store(true, v, n)
  {
    SwapStores(v, n);
    if n == 1 {
      assert Store(big, v, 1) == [v % 256] == Store(true, v, 1) by {
        assert Store(big, v / 256, 0) == [];
      }
    }
  }

  /** So bytes survive the way in and out. */
  lemma NetworkRoundTrip(big: bool, b: seq<Byte>)
    requires Width(|b|)
    ensures Store(big, HostToBig(big, BigToHost(big, Load(big, b), |b|), |b|), |b|) == b
  {
    NetworkToHost(big, b);
    BigEndianFront(b);
    HostToNetwork(big, BigEndian(b), |b|);
    LoadStore(true, b);
  }
}
