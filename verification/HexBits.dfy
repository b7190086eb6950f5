/** The 256-bit keys of the nonce ledger: 64 lower-case hexadecimal digits, read
    nibble by nibble by the trie and as one integer by the leaf splitter. */
module HexBits {
  import opened Wrappers

  predicate IsHex(c: char) {
    '0' <= c <= '9' || 'a' <= c <= 'f'
  }

  predicate AllHex(s: string) {
    forall i | 0 <= i < |s| :: IsHex(s[i])
  }

  /** A lower-case SHA-256 string. */
  type Sha = s: string | |s| == 64 && AllHex(s)
    witness seq(64, i => '0')

  function Digit(c: char): (d: nat)
    requires IsHex(c)
    ensures d < 16
  {
    if c <= '9' then c as int - '0' as int else c as int - 'a' as int + 10
  }

  /** `x >> k`. */
  function Shr(x: nat, k: nat): nat
    decreases k
  {
    if k == 0 then x else Shr(x / 2, k - 1)
  }

  /** Bit `index` of a key, counted from the most significant end. */
  predicate Bit(key: Sha, index: nat)
    requires index < 256
  {
    Shr(Digit(key[index / 4]), 3 - index % 4) % 2 == 1
  }

  /** `int(s, 16)`. */
  function HexInt(s: string): nat
    requires AllHex(s)
  {
    if s == "" then 0 else HexInt(s[..|s| - 1]) * 16 + Digit(s[|s| - 1])
  }

  function Xor(a: nat, b: nat): nat
  {
    if a == 0 && b == 0 then 0
    else 2 * Xor(a / 2, b / 2) + (if a % 2 != b % 2 then 1 else 0)
  }

  function BitLength(x: nat): nat
  {
    if x == 0 then 0 else 1 + BitLength(x / 2)
  }

  /** `None` stands for the error raised when the two keys are the same. */
  function FirstDifferentBit(left: Sha, right: Sha): Option<int>
  {
    var xor := Xor(HexInt(left), HexInt(right));
    if xor == 0 then None else Some(256 - BitLength(xor))
  }

  /** Two keys carry the same bits below index `n`. */
  ghost predicate Agree(left: Sha, right: Sha, n: nat)
    requires n <= 256
  {
    forall i | 0 <= i < n :: Bit(left, i) == Bit(right, i)
  }

  lemma {:induction false} XorBit(a: nat, b: nat, k: nat)
    ensures (Shr(Xor(a, b), k) % 2 == 1) == ((Shr(a, k) % 2 == 1) != (Shr(b, k) % 2 == 1))
    decreases k
  {
    if a == 0 && b == 0 {
      ShrZero(k);
    } else {
      assert Xor(a, b) / 2 == Xor(a / 2, b / 2);
      if k > 0 {
        XorBit(a / 2, b / 2, k - 1);
      }
    }
  }

  lemma {:induction false} ShrZero(k: nat)
    ensures Shr(0, k) == 0
  {
    if k > 0 {
      ShrZero(k - 1);
    }
  }

  /** The top set bit sits just below the bit length and nothing is set above it. */
  lemma {:induction false} TopBit(x: nat)
    requires x > 0
    ensures BitLength(x) > 0 && Shr(x, BitLength(x) - 1) % 2 == 1
    ensures forall k | k >= BitLength(x) :: Shr(x, k) == 0
  {
    if x / 2 > 0 {
      TopBit(x / 2);
    }
    forall k | k >= BitLength(x)
      ensures Shr(x, k) == 0
    {
      if x / 2 == 0 {
        ShrZero(k - 1);
      }
    }
  }

  lemma {:induction false} XorZero(a: nat, b: nat)
    ensures Xor(a, b) == 0 <==> a == b
    decreases a + b
  {
    if a != 0 || b != 0 {
      XorZero(a / 2, b / 2);
    }
  }

  /** A number written with one more nibble, halved up to four times. */
  lemma Halvings(v: nat, d: nat)
    requires d < 16
    ensures var x := v * 16 + d;
            && x / 2 / 2 / 2 / 2 == v
            && x % 2 == d % 2 && x / 2 % 2 == d / 2 % 2
            && x / 2 / 2 % 2 == d / 2 / 2 % 2 && x / 2 / 2 / 2 % 2 == d / 2 / 2 / 2 % 2
  {
    var x := v * 16 + d;
    assert x / 2 == v * 8 + d / 2;
    assert x / 2 / 2 == v * 4 + d / 2 / 2;
    assert x / 2 / 2 / 2 == v * 2 + d / 2 / 2 / 2;
  }

  lemma ShrNibble(v: nat, d: nat, k: nat)
    requires d < 16
    ensures k < 4 ==> Shr(v * 16 + d, k) % 2 == Shr(d, k) % 2
    ensures k >= 4 ==> Shr(v * 16 + d, k) == Shr(v, k - 4)
  {
    var x := v * 16 + d;
    Halvings(v, d);
    assert Shr(x, 0) == x && Shr(d, 0) == d;
    if k == 1 {
      assert Shr(x, 1) == Shr(x / 2, 0) && Shr(d, 1) == Shr(d / 2, 0);
    } else if k == 2 {
      assert Shr(x, 2) == Shr(x / 2, 1) == Shr(x / 2 / 2, 0);
      assert Shr(d, 2) == Shr(d / 2, 1) == Shr(d / 2 / 2, 0);
    } else if k == 3 {
      assert Shr(x, 3) == Shr(x / 2, 2) == Shr(x / 2 / 2, 1) == Shr(x / 2 / 2 / 2, 0);
      assert Shr(d, 3) == Shr(d / 2, 2) == Shr(d / 2 / 2, 1) == Shr(d / 2 / 2 / 2, 0);
    } else if k >= 4 {
      assert Shr(x, k) == Shr(x / 2, k - 1) == Shr(x / 2 / 2, k - 2) == Shr(x / 2 / 2 / 2, k - 3);
    }
  }

  /** The nibble arithmetic of a bit test is a shift of the whole integer. */
  lemma {:induction false} NibbleBit(s: string, i: nat)
    requires AllHex(s) && i < 4 * |s|
    ensures Shr(Digit(s[i / 4]), 3 - i % 4) % 2 == Shr(HexInt(s), 4 * |s| - 1 - i) % 2
    decreases |s|
  {
    var front := s[..|s| - 1];
    ShrNibble(HexInt(front), Digit(s[|s| - 1]), 4 * |s| - 1 - i);
    if i < 4 * |front| {
      NibbleBit(front, i);
      assert front[i / 4] == s[i / 4];
    } else {
      assert i / 4 == |s| - 1 && 4 * |s| - 1 - i == 3 - i % 4;
    }
  }

  lemma DigitInjective(c: char, d: char)
    requires IsHex(c) && IsHex(d) && Digit(c) == Digit(d)
    ensures c == d
  {
    assert c as int == d as int;
  }

  lemma {:induction false} HexIntInjective(s: string, t: string)
    requires AllHex(s) && AllHex(t) && |s| == |t| && HexInt(s) == HexInt(t)
    ensures s == t
    decreases |s|
  {
    if |s| > 0 {
      var n := |s| - 1;
      assert Digit(s[n]) == Digit(t[n]);
      DigitInjective(s[n], t[n]);
      HexIntInjective(s[..n], t[..n]);
      assert s == s[..n] + [s[n]] && t == t[..n] + [t[n]];
    }
  }

  lemma IntegerBit(left: Sha, right: Sha, i: nat)
    requires i < 256
    ensures (Bit(left, i) != Bit(right, i)) ==
            (Shr(Xor(HexInt(left), HexInt(right)), 255 - i) % 2 == 1)
  {
    NibbleBit(left, i);
    NibbleBit(right, i);
    XorBit(HexInt(left), HexInt(right), 255 - i);
  }

  /** A non-zero exclusive-or of two keys has at most 256 bits. */
  lemma {:induction false} HexIntBound(s: string, k: nat)
    requires AllHex(s) && k >= 4 * |s|
    ensures Shr(HexInt(s), k) == 0
    decreases |s|
  {
    if s == "" {
      ShrZero(k);
    } else {
      ShrNibble(HexInt(s[..|s| - 1]), Digit(s[|s| - 1]), k);
      HexIntBound(s[..|s| - 1], k - 4);
    }
  }

  /** 256 minus the exclusive-or's bit length is the least index at which the nibble
      test tells two keys apart, and it is refused exactly for equal keys. */
  lemma {:induction false} FirstDifferentBitIsLeast(left: Sha, right: Sha)
    ensures FirstDifferentBit(left, right).None? <==> left == right
    ensures left != right ==>
              var d := FirstDifferentBit(left, right).value;
              0 <= d < 256 && Bit(left, d) != Bit(right, d) && Agree(left, right, d)
  {
    var xor := Xor(HexInt(left), HexInt(right));
    XorZero(HexInt(left), HexInt(right));
    if xor == 0 {
      HexIntInjective(left, right);
    } else {
      TopBit(xor);
      var length := BitLength(xor);
      XorBit(HexInt(left), HexInt(right), length - 1);
      if length > 256 {
        HexIntBound(left, length - 1);
        HexIntBound(right, length - 1);
      }
      IntegerBit(left, right, 256 - length);
      forall i: nat | i < 256 - length
        ensures Bit(left, i) == Bit(right, i)
      {
        IntegerBit(left, right, i);
      }
    }
  }

  /** Keys that agree on all 256 bits are one key. */
  lemma {:induction false} AgreeEverywhere(left: Sha, right: Sha)
    requires Agree(left, right, 256)
    ensures left == right
  {
    FirstDifferentBitIsLeast(left, right);
  }
}
