/** The hexadecimal renderings of the agent's log and of the controller's VM identities. */
module Hex {
  import opened Types

  function Digit(d: nat, upper: bool): (c: char)
    requires d < 16
  {
    if d < 10 then '0' + d as char else if upper then 'A' + (d - 10) as char else 'a' + (d - 10) as char
  }

  function Value(c: char): Option<nat> {
    if '0' <= c <= '9' then Some((c - '0') as nat)
    else if 'a' <= c <= 'f' then Some((c - 'a') as nat + 10)
    else if 'A' <= c <= 'F' then Some((c - 'A') as nat + 10)
    else None
  }

  /** `{:x}` / `{:X}`: shortest rendering, "0" for zero. */
  function Render(n: nat, upper: bool): (s: string) {
    if n < 16 then [Digit(n, upper)] else Render(n / 16, upper) + [Digit(n % 16, upper)]
  }

  function Zeros(w: nat): (s: string)
    ensures |s| == w
  {
    if w == 0 then "" else ['0'] + Zeros(w - 1)
  }

  /** `{:0wx}`: `Render`, left-padded with zeros up to width `w`. */
  function Padded(n: nat, w: nat, upper: bool): (s: string) {
    var s := Render(n, upper);
    if |s| < w then Zeros(w - |s|) + s else s
  }

  /** The number a hexadecimal text denotes. */
  function Parse(s: string): Option<nat> {
    if s == "" then None
    else match Value(s[|s| - 1])
      case None => None
      case Some(d) =>
        if |s| == 1 then Some(d)
        else match Parse(s[..|s| - 1])
          case None => None
          case Some(n) => Some(n * 16 + d)
  }

  function Pow16(w: nat): (p: nat)
    ensures p > 0
  {
    if w == 0 then 1 else 16 * Pow16(w - 1)
  }

  lemma {:induction false} RenderRoundTrip(n: nat, upper: bool)
    ensures Parse(Render(n, upper)) == Some(n)
  {
    if n >= 16 {
      RenderRoundTrip(n / 16, upper);
      var s := Render(n, upper);
      assert s[..|s| - 1] == Render(n / 16, upper);
    }
  }

  lemma {:induction false} RenderLength(n: nat, w: nat, upper: bool)
    requires 0 < w && n < Pow16(w)
    ensures 0 < |Render(n, upper)| <= w
  {
    if n >= 16 {
      RenderLength(n / 16, w - 1, upper);
    }
  }

  lemma {:induction false} ZerosEnd(w: nat)
    requires 0 < w
    ensures Zeros(w) == Zeros(w - 1) + ['0']
  {
    if w > 1 {
      ZerosEnd(w - 1);
    }
  }

  lemma {:induction false} AllZeros(w: nat)
    requires 0 < w
    ensures Parse(Zeros(w)) == Some(0)
  {
    if w > 1 {
      ZerosEnd(w);
      AllZeros(w - 1);
    }
  }

  lemma {:induction false} LeadingZeros(w: nat, s: string)
    requires Parse(s).Some?
    ensures Parse(Zeros(w) + s) == Parse(s)
  {
    var t := Zeros(w) + s;
    assert t[|t| - 1] == s[|s| - 1];
    if |s| == 1 {
      if w > 0 {
        AllZeros(w);
        assert t[..|t| - 1] == Zeros(w);
      }
    } else {
      assert t[..|t| - 1] == Zeros(w) + s[..|s| - 1];
      LeadingZeros(w, s[..|s| - 1]);
    }
  }

  /** Zero-padded renderings have their fixed width and keep the number. */
  lemma PaddedRoundTrip(n: nat, w: nat, upper: bool)
    requires 0 < w && n < Pow16(w)
    ensures |Padded(n, w, upper)| == w
    ensures Parse(Padded(n, w, upper)) == Some(n)
  {
    RenderLength(n, w, upper);
    RenderRoundTrip(n, upper);
    LeadingZeros(w - |Render(n, upper)|, Render(n, upper));
  }

  lemma ShiftDigit(p: nat, q: nat, m: nat)
    ensures (p * q + m) * 16 == p * (16 * q) + m * 16
  {
    assert p * (16 * q) == (p * q) * 16;
  }

  /** Texts side by side denote the positional sum of their numbers. */
  lemma {:induction false} ParseAppend(a: string, b: string)
    requires Parse(a).Some? && Parse(b).Some?
    ensures Parse(a + b) == Some(Parse(a).value * Pow16(|b|) + Parse(b).value)
  {
    var t := a + b;
    assert t[|t| - 1] == b[|b| - 1];
    assert t[..|t| - 1] == a + b[..|b| - 1];
    if |b| == 1 {
      assert t[..|t| - 1] == a;
      assert Pow16(1) == 16 * Pow16(0);
    } else {
      ParseAppend(a, b[..|b| - 1]);
      var p, q, m := Parse(a).value, Pow16(|b| - 1), Parse(b[..|b| - 1]).value;
      ShiftDigit(p, q, m);
    }
  }

  /** `format!("{:02x}", byte)` over a byte string. */
  function RenderBytes(bs: seq<Byte>): (s: string) {
    if bs == [] then "" else Padded(bs[0], 2, false) + RenderBytes(bs[1..])
  }

  function ParseBytes(s: string): Option<seq<nat>> {
    if s == "" then Some([])
    else if |s| == 1 then None
    else match (Parse(s[..2]), ParseBytes(s[2..]))
      case (Some(b), Some(bs)) => Some([b] + bs)
      case _ => None
  }

  /** A rendered byte string has two characters a byte and reads back as itself. */
  lemma {:induction false} BytesRoundTrip(bs: seq<Byte>)
    ensures |RenderBytes(bs)| == 2 * |bs|
    ensures ParseBytes(RenderBytes(bs)) == Some(bs)
  {
    if bs != [] {
      assert Pow16(2) == 16 * Pow16(1) && Pow16(1) == 16 * Pow16(0);
      PaddedRoundTrip(bs[0], 2, false);
      BytesRoundTrip(bs[1..]);
      var s := RenderBytes(bs);
      assert s[..2] == Padded(bs[0], 2, false) && s[2..] == RenderBytes(bs[1..]);
      assert [bs[0]] + bs[1..] == bs;
    }
  }
}
