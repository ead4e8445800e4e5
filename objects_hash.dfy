/** Java's 32-bit hash codes for the identity of an adjustor context:
    `Objects.hash(id)` over `String.hashCode`, with the wrap-around of Java's
    `int` arithmetic written out. */
module ObjectsHash {

  const Modulus: int := 0x1_0000_0000
  const Half: int := 0x8000_0000

  /** True of the values a Java `int` can hold. */
  predicate IsInt32(x: int) {
    -Half <= x < Half
  }

  /** The Java `int` that an unbounded result wraps around to. */
  function Wrap32(x: int): (r: int)
    ensures IsInt32(r)
    ensures (x - r) % Modulus == 0
  {
    (x + Half) % Modulus - Half
  }

  /** Wrapping ignores whole multiples of 2^32. */
  lemma WrapShift(x: int, k: int)
    ensures Wrap32(x + Modulus * k) == Wrap32(x)
  {
    assert x + Modulus * k + Half == (x + Half) + Modulus * k;
  }

  /** Horner's rule without overflow: the polynomial
      s[0]*31^(n-1) + ... + s[n-1] that Java's `String.hashCode` documents. */
  function Polynomial(s: string): int {
    if s == [] then 0 else 31 * Polynomial(s[..|s| - 1]) + s[|s| - 1] as int
  }

  /** `String.hashCode`: `h = 31 * h + c` over the characters, in `int`
      arithmetic. */
  function StringHash(s: string): (r: int)
    ensures IsInt32(r)
  {
    if s == [] then 0 else Wrap32(31 * StringHash(s[..|s| - 1]) + s[|s| - 1] as int)
  }

  /** Wrapping at every step gives the same hash as wrapping the documented
      polynomial once. */
  lemma {:induction false} StringHashIsPolynomial(s: string)
    ensures StringHash(s) == Wrap32(Polynomial(s))
  {
    if s != [] {
      var p, c := s[..|s| - 1], s[|s| - 1] as int;
      StringHashIsPolynomial(p);
      var y := Polynomial(p);
      var k := (Wrap32(y) - y) / Modulus;
      assert Wrap32(y) - y == Modulus * k;
      calc {
        StringHash(s);
        Wrap32(31 * Wrap32(y) + c);
        { assert 31 * Wrap32(y) + c == (31 * y + c) + Modulus * (31 * k); }
        Wrap32((31 * y + c) + Modulus * (31 * k));
        { WrapShift(31 * y + c, 31 * k); }
        Wrap32(31 * y + c);
      }
    }
  }

  /** `Objects.hash(id)`: the array hash `31 * 1 + id.hashCode()`. */
  function HashOfId(id: string): (r: int)
    ensures IsInt32(r)
    ensures r == Wrap32(31 + Polynomial(id))
  {
    StringHashIsPolynomial(id);
    var y := Polynomial(id);
    var k := (y - Wrap32(y)) / Modulus;
    assert y - Wrap32(y) == Modulus * k;
    WrapShift(31 + Wrap32(y), k);
    assert 31 + Wrap32(y) + Modulus * k == 31 + y;
    Wrap32(31 + StringHash(id))
  }
}
