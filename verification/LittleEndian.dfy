/** Bytes and little-endian words of any width. */
module LittleEndian {
  import opened Arithmetic

  type Byte = b: nat | b < 256
  type Bytes = seq<Byte>

  function Power256(n: nat): (p: nat)
    ensures p > 0
  {
    if n == 0 then 1 else 256 * Power256(n - 1)
  }

  /** The `n` low-order bytes of `v`: what an n-byte store keeps. */
  function ToBytes(v: nat, n: nat): (w: Bytes)
    ensures |w| == n
  {
    if n == 0 then [] else [v % 256] + ToBytes(v / 256, n - 1)
  }

  function FromBytes(w: Bytes): nat {
    if w == [] then 0 else w[0] as int + 256 * FromBytes(w[1..])
  }

  /** Little-endian: byte i of a store carries the digit of 256^i. */
  lemma {:induction false} ByteAt(v: nat, n: nat, i: nat)
    requires i < n
    ensures ToBytes(v, n)[i] == v / Power256(i) % 256
  {
    if i > 0 {
      ByteAt(v / 256, n - 1, i - 1);
      DivideTwice(v, Power256(i - 1));
    }
  }

  lemma DivideTwice(v: nat, p: nat)
    requires p > 0
    ensures v / 256 / p == v / (256 * p)
  {
    var q, d := v / 256 / p, v / 256 % p * 256 + v % 256;
    assert v / 256 == q * p + v / 256 % p;
    assert v == 256 * (q * p) + d && 256 * (q * p) == q * (256 * p);
    DivModUnique(q, d, 256 * p);
  }

  /** Reading back an n-byte store loses exactly what does not fit in n bytes. */
  lemma {:induction false} StoreLoad(v: nat, n: nat)
    ensures FromBytes(ToBytes(v, n)) == v % Power256(n)
  {
    if n > 0 {
      StoreLoad(v / 256, n - 1);
      var p := Power256(n - 1);
      assert ToBytes(v, n)[1..] == ToBytes(v / 256, n - 1);
      SplitRemainder(v, p);
    }
  }

  lemma SplitRemainder(v: nat, p: nat)
    requires p > 0
    ensures v % (256 * p) == v % 256 + 256 * (v / 256 % p)
  {
    var h := v / 256;
    var q, d := h / p, v % 256 + 256 * (h % p);
    assert h == q * p + h % p;
    assert v == 256 * (q * p) + d && 256 * (q * p) == q * (256 * p);
    DivModUnique(q, d, 256 * p);
  }

  lemma {:induction false} Zeros(w: Bytes)
    requires forall i | 0 <= i < |w| :: w[i] == 0
    ensures FromBytes(w) == 0
  {
    if w != [] {
      Zeros(w[1..]);
    }
  }
}
