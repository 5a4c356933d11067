// Bytes and fixed-width integers in both byte orders.
module Octets {
  type Byte = x: int | 0 <= x < 256
  type U16 = x: int | 0 <= x < 0x1_0000
  type U32 = x: int | 0 <= x < 0x1_0000_0000
  type U64 = x: int | 0 <= x < 0x1_0000_0000_0000_0000

  const U64_LIMIT := 0x1_0000_0000_0000_0000

  function Power(n: nat): nat {
    if n == 0 then 1 else 256 * Power(n - 1)
  }

  /** to_be_bytes of an n-byte integer. */
  function Be(v: nat, n: nat): (r: seq<Byte>)
    ensures |r| == n
  {
    if n == 0 then [] else Be(v / 256, n - 1) + [v % 256]
  }

  /** to_le_bytes of an n-byte integer. */
  function Le(v: nat, n: nat): (r: seq<Byte>)
    ensures |r| == n
  {
    if n == 0 then [] else [v % 256] + Le(v / 256, n - 1)
  }

  function FromBe(s: seq<Byte>): nat {
    if s == [] then 0 else 256 * FromBe(s[..|s| - 1]) + s[|s| - 1]
  }

  function FromLe(s: seq<Byte>): nat {
    if s == [] then 0 else 256 * FromLe(s[1..]) + s[0]
  }

  lemma {:induction false} BeRoundTrip(v: nat, n: nat)
    requires v < Power(n)
    ensures FromBe(Be(v, n)) == v
  {
    if n > 0 {
      BeRoundTrip(v / 256, n - 1);
      assert Be(v, n)[..n - 1] == Be(v / 256, n - 1);
    }
  }

  lemma {:induction false} LeRoundTrip(v: nat, n: nat)
    requires v < Power(n)
    ensures FromLe(Le(v, n)) == v
  {
    if n > 0 {
      LeRoundTrip(v / 256, n - 1);
      assert Le(v, n)[1..] == Le(v / 256, n - 1);
    }
  }

  lemma BeOnce(low: Byte, rest: nat, n: nat)
    ensures Be(256 * rest + low, n + 1) == Be(rest, n) + [low]
  {
    assert (256 * rest + low) / 256 == rest && (256 * rest + low) % 256 == low;
  }

  lemma {:induction false} BeOfBytes(s: seq<Byte>)
    ensures FromBe(s) < Power(|s|)
    ensures Be(FromBe(s), |s|) == s
  {
    if s != [] {
      var init, low := s[..|s| - 1], s[|s| - 1];
      BeOfBytes(init);
      BeOnce(low, FromBe(init), |init|);
      assert s == init + [low];
    }
  }

  lemma LeOnce(low: Byte, rest: nat, n: nat)
    ensures Le(256 * rest + low, n + 1) == [low] + Le(rest, n)
  {
    assert (256 * rest + low) / 256 == rest && (256 * rest + low) % 256 == low;
  }

  lemma {:induction false} LeOfBytes(s: seq<Byte>)
    ensures FromLe(s) < Power(|s|)
    ensures Le(FromLe(s), |s|) == s
  {
    if s != [] {
      var tail := s[1..];
      LeOfBytes(tail);
      LeOnce(s[0], FromLe(tail), |tail|);
      assert s == [s[0]] + tail;
    }
  }

  lemma Widths()
    ensures Power(2) == 0x1_0000 && Power(4) == 0x1_0000_0000 && Power(8) == 0x1_0000_0000_0000_0000
  {
    assert Power(3) == 256 * Power(2);
    assert Power(5) == 256 * Power(4);
    assert Power(7) == 256 * Power(6);
  }
}
