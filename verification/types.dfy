/** Vocabulary shared by every module: machine widths and the optional value. */
module Types {
  datatype Option<+T> = None | Some(value: T)

  type Byte = x: int | 0 <= x < 0x100

  type U32 = x: int | 0 <= x < 0x1_0000_0000

  type I32 = x: int | -0x8000_0000 <= x < 0x8000_0000

  type I64 = x: int | -0x8000_0000_0000_0000 <= x < 0x8000_0000_0000_0000

  /** The unsigned reading of a two's-complement number of the given modulus. */
  function Unsigned(i: int, modulus: nat): (u: nat)
    requires 0 <= 2 * i + modulus < 2 * modulus
    ensures u < modulus && (u - i) % modulus == 0
  {
    if i < 0 then i + modulus else i
  }

  /** The two's-complement reading of an unsigned number. */
  function Signed(u: nat, modulus: nat): (i: int)
    requires u < modulus
    ensures 0 <= 2 * i + modulus < 2 * modulus && (u - i) % modulus == 0
  {
    if 2 * u >= modulus then u - modulus else u
  }

  /** Unicode white space, as `trim` and `split_whitespace` see it. */
  predicate IsSpace(c: char) {
    var u := c as int;
    || 0x09 <= u <= 0x0D || u == 0x20 || u == 0x85 || u == 0xA0 || u == 0x1680 || 0x2000 <= u <= 0x200A
    || u == 0x2028 || u == 0x2029 || u == 0x202F || u == 0x205F || u == 0x3000
  }
}
