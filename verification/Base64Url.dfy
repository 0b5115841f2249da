/** The streaming base64url encoder for enrollment tokens, against the grouped
    definition of section 5 of RFC 4648 without padding. */
module Base64Url {
  import opened Division
  import opened Widths

  type Byte = x: int | 0 <= x < 256
  type Sextet = x: int | 0 <= x < 64

  // ---- The standard's definition ----

  /** Three bytes give four sextets; a final one or two give two or three, with
      zero bits added on the right. */
  function Sextets(b: seq<Byte>): seq<Sextet>
  {
    if |b| == 0 then []
    else if |b| == 1 then [First(b[0]), Second(b[0], 0)]
    else if |b| == 2 then [First(b[0]), Second(b[0], b[1]), Third(b[1], 0)]
    else Group(b[0], b[1], b[2]) + Sextets(b[3..])
  }

  function First(x: Byte): Sextet { x / 4 }
  function Second(x: Byte, y: Byte): Sextet { x % 4 * 16 + y / 16 }
  function Third(y: Byte, z: Byte): Sextet { y % 16 * 4 + z / 64 }
  function Fourth(z: Byte): Sextet { z % 64 }

  function Group(x: Byte, y: Byte, z: Byte): seq<Sextet> { [First(x), Second(x, y), Third(y, z), Fourth(z)] }

  function Bytes(s: seq<Sextet>): seq<Byte>
  {
    if |s| <= 1 then []
    else if |s| == 2 then [Joined(s[0], 4, s[1], 16)]
    else if |s| == 3 then [Joined(s[0], 4, s[1], 16), Joined(s[1] % 16, 16, s[2], 4)]
    else [Joined(s[0], 4, s[1], 16), Joined(s[1] % 16, 16, s[2], 4), Joined(s[2] % 4, 64, s[3], 1)] + Bytes(s[4..])
  }

  function Joined(high: int, scale: int, low: int, drop: int): Byte
    requires 0 <= low < 64 &&
      ((scale == 4 && drop == 16 && 0 <= high < 64) || (scale == 16 && drop == 4 && 0 <= high < 16) ||
        (scale == 64 && drop == 1 && 0 <= high < 4))
  {
    high * scale + low / drop
  }

  lemma GroupJoins(x: Byte, y: Byte, z: Byte)
    ensures var s1, s2 := x % 4 * 16 + y / 16, y % 16 * 4 + z / 64;
      s1 / 16 == x % 4 && s1 % 16 == y / 16 && s2 / 4 == y % 16 && s2 % 4 == z / 64
  {
    DivMod(x % 4 * 16 + y / 16, 16, x % 4, y / 16);
    DivMod(y % 16 * 4 + z / 64, 4, y % 16, z / 64);
  }

  /** Decoding gives the bytes back, whatever their number. */
  lemma {:induction false} DecodesBack(b: seq<Byte>)
    ensures Bytes(Sextets(b)) == b
  {
    if |b| == 1 {
      GroupJoins(b[0], 0, 0);
    } else if |b| == 2 {
      GroupJoins(b[0], b[1], 0);
    } else if |b| >= 3 {
      DecodesBack(b[3..]);
      GroupJoins(b[0], b[1], b[2]);
      assert Sextets(b)[4..] == Sextets(b[3..]);
      assert b == [b[0], b[1], b[2]] + b[3..];
    }
  }

  lemma {:induction false} SextetCount(b: seq<Byte>)
    ensures |Sextets(b)| == (8 * |b| + 5) / 6
  {
    if |b| >= 3 { SextetCount(b[3..]); }
  }

  lemma {:induction false} SextetsExtend(b: seq<Byte>, x: Byte, y: Byte, z: Byte)
    requires |b| % 3 == 0
    ensures Sextets(b + [x, y, z]) == Sextets(b) + Group(x, y, z)
  {
    if b == [] {
      assert b + [x, y, z] == [x, y, z];
    } else {
      assert (b + [x, y, z])[3..] == b[3..] + [x, y, z];
      SextetsExtend(b[3..], x, y, z);
    }
  }

  lemma {:induction false} SextetsTail(b: seq<Byte>, tail: seq<Byte>)
    requires |b| % 3 == 0 && |tail| < 3
    ensures Sextets(b + tail) == Sextets(b) + Sextets(tail)
  {
    if b == [] {
      assert b + tail == tail;
    } else {
      assert (b + tail)[3..] == b[3..] + tail;
      SextetsTail(b[3..], tail);
    }
  }

  // ---- Symbols ----

  /** The alphabet: upper case, lower case, digits, hyphen, underscore. */
  function Symbol(s: Sextet): char
  {
    if s < 26 then 'A' + s as char
    else if s < 52 then 'a' + (s - 26) as char
    else if s < 62 then '0' + (s - 52) as char
    else if s == 62 then '-' else '_'
  }

  function Text(s: seq<Sextet>): (t: string)
    ensures |t| == |s| && forall i :: 0 <= i < |s| ==> t[i] == Symbol(s[i])
  {
    seq(|s|, i requires 0 <= i < |s| => Symbol(s[i]))
  }

  function ValueOf(c: char): Sextet
  {
    if 'A' <= c <= 'Z' then (c - 'A') as int
    else if 'a' <= c <= 'z' then (c - 'a') as int + 26
    else if '0' <= c <= '9' then (c - '0') as int + 52
    else if c == '-' then 62 else 63
  }

  function Values(t: string): (s: seq<Sextet>)
    ensures |s| == |t| && forall i :: 0 <= i < |t| ==> s[i] == ValueOf(t[i])
  {
    seq(|t|, i requires 0 <= i < |t| => ValueOf(t[i]))
  }

  lemma SymbolValue(s: Sextet)
    ensures ValueOf(Symbol(s)) == s
  {
  }

  /** Decoding the text returns the bytes, and the text has ceil(8n/6) symbols. */
  lemma TextDecodesBack(b: seq<Byte>)
    ensures Bytes(Values(Text(Sextets(b)))) == b && |Text(Sextets(b))| == (8 * |b| + 5) / 6
  {
    var s := Sextets(b);
    forall i | 0 <= i < |s| ensures Values(Text(s))[i] == s[i] { SymbolValue(s[i]); }
    assert Values(Text(s)) == s;
    DecodesBack(b);
    SextetCount(b);
  }

  // ---- The streaming form ----

  /** What has been written and what is still pending after `i` bytes. */
  ghost predicate Streamed(value: seq<Byte>, i: nat, acc: int, bits: nat, out: seq<Sextet>)
    requires i <= |value|
  {
    match i % 3
    case 0 => bits == 0 && out == Sextets(value[..i])
    case 1 => bits == 2 && acc % 4 == value[i - 1] % 4 && out == Sextets(value[..i - 1]) + [First(value[i - 1])]
    case _ =>
      && bits == 4 && acc % 16 == value[i - 1] % 16
      && out == Sextets(value[..i - 2]) + [First(value[i - 2]), Second(value[i - 2], value[i - 1])]
  }

  /** Shifting a byte into the wrapping accumulator keeps what is pending. */
  function Shifted(acc: int, b: Byte): int { (acc * 256 + b) % WORD }

  lemma ShiftedLow(acc: int, b: Byte)
    requires 0 <= acc < WORD
    ensures Shifted(acc, b) % 4096 == acc % 16 * 256 + b
    ensures 0 <= Shifted(acc, b) < WORD
  {
    var n := acc * 256 + b;
    DivMod(n, 4096, acc / 16, acc % 16 * 256 + b);
    var q, r := n / WORD, n % WORD;
    assert n == WORD * q + r;
    DivMod(n, 4096, 1_048_576 * q + r / 4096, r % 4096);
  }

  /** One byte: one or two sextets come out. */
  lemma StreamStep(value: seq<Byte>, i: nat, acc: int, bits: nat, out: seq<Sextet>)
    requires i < |value| && Streamed(value, i, acc, bits, out) && 0 <= acc < WORD
    ensures var next := Shifted(acc, value[i]);
      if bits < 4 then Streamed(value, i + 1, next, bits + 2, out + [next / Power(bits + 2) % 64])
      else Streamed(value, i + 1, next, 0, out + [next / Power(6) % 64, next % 64])
  {
    var b, next := value[i], Shifted(acc, value[i]);
    ShiftedLow(acc, b);
    LowPart(next, acc, b);
    hide Shifted, Power;
    var q := i / 3;
    if i % 3 == 0 {
      DivMod(i + 1, 3, q, 1);
    } else if i % 3 == 1 {
      DivMod(i + 1, 3, q, 2);
    } else {
      DivMod(i + 1, 3, q + 1, 0);
      ThirdByte(value, i);
    }
  }

  lemma ThirdByte(value: seq<Byte>, i: nat)
    requires 2 <= i < |value| && i % 3 == 2
    ensures Sextets(value[..i + 1]) == Sextets(value[..i - 2]) + Group(value[i - 2], value[i - 1], value[i])
  {
    DivMod(i - 2, 3, i / 3, 0);
    SextetsExtend(value[..i - 2], value[i - 2], value[i - 1], value[i]);
    assert value[..i + 1] == value[..i - 2] + [value[i - 2], value[i - 1], value[i]];
  }

  function Power(n: nat): (p: int)
    ensures p >= 1
  {
    if n == 0 then 1 else 2 * Power(n - 1)
  }

  lemma PowerValues()
    ensures Power(0) == 1 && Power(2) == 4 && Power(4) == 16 && Power(6) == 64
  {
    assert Power(1) == 2 && Power(3) == 8 && Power(5) == 32;
  }

  lemma LowPart(next: int, acc: int, b: Byte)
    requires next % 4096 == acc % 16 * 256 + b && next >= 0
    ensures next % 4 == b % 4 && next % 16 == b % 16 && next % 64 == b % 64
    ensures next / Power(2) % 64 == b / 4
    ensures next / Power(4) % 64 == acc % 4 * 16 + b / 16
    ensures next / Power(6) % 64 == acc % 16 * 4 + b / 64
  {
    hide Power;
    PowerValues();
    LowPartOf(next, next / 4096, acc % 16, b);
    DivMod(acc, 4, 4 * (acc / 16) + acc % 16 / 4, acc % 16 % 4);
  }

  lemma LowPartOf(n: int, q: int, a: int, b: Byte)
    requires n == 4096 * q + 256 * a + b && 0 <= a < 16 && 0 <= q
    ensures n % 4 == b % 4 && n % 16 == b % 16 && n % 64 == b % 64
    ensures n / 4 % 64 == b / 4
    ensures n / 16 % 64 == a % 4 * 16 + b / 16
    ensures n / 64 % 64 == a * 4 + b / 64
  {
    DivMod(n, 4, 1024 * q + 64 * a + b / 4, b % 4);
    DivMod(n, 16, 256 * q + 16 * a + b / 16, b % 16);
    DivMod(n, 64, 64 * q + 4 * a + b / 64, b % 64);
    DivMod(n / 4, 64, 16 * q + a, b / 4);
    DivMod(n / 16, 64, 4 * q + a / 4, a % 4 * 16 + b / 16);
    DivMod(n / 64, 64, q, 4 * a + b / 64);
  }

  /** What the final partial group adds. */
  lemma LastSextet(value: seq<Byte>, acc: int, bits: nat, out: seq<Sextet>)
    requires Streamed(value, |value|, acc, bits, out)
    ensures bits == 0 ==> out == Sextets(value)
    ensures bits == 2 ==> out + [acc % 4 * 16] == Sextets(value)
    ensures bits == 4 ==> out + [acc % 16 * 4] == Sextets(value)
    ensures bits == 0 || bits == 2 || bits == 4
  {
    hide Sextets, First;
    var n := |value|;
    assert value[..n] == value;
    if n % 3 == 1 {
      DivMod(n - 1, 3, n / 3, 0);
      assert value == value[..n - 1] + [value[n - 1]];
      LastOne(value[..n - 1], value[n - 1]);
    } else if n % 3 == 2 {
      DivMod(n - 2, 3, n / 3, 0);
      assert value == value[..n - 2] + [value[n - 2], value[n - 1]];
      LastTwo(value[..n - 2], value[n - 2], value[n - 1]);
    }
  }

  lemma LastOne(head: seq<Byte>, x: Byte)
    requires |head| % 3 == 0
    ensures Sextets(head + [x]) == Sextets(head) + [First(x)] + [Second(x, 0)]
  {
    hide Sextets, First, Second;
    SextetsTail(head, [x]);
    TailSextets(x, 0);
    Regroup(Sextets(head), [First(x)], [Second(x, 0)]);
  }

  lemma LastTwo(head: seq<Byte>, x: Byte, y: Byte)
    requires |head| % 3 == 0
    ensures Sextets(head + [x, y]) == Sextets(head) + [First(x), Second(x, y)] + [Third(y, 0)]
  {
    hide Sextets, First, Second, Third;
    SextetsTail(head, [x, y]);
    TailSextets(x, y);
    Regroup(Sextets(head), [First(x), Second(x, y)], [Third(y, 0)]);
  }

  lemma TailSextets(x: Byte, y: Byte)
    ensures Sextets([x]) == [First(x)] + [Second(x, 0)]
    ensures Sextets([x, y]) == [First(x), Second(x, y)] + [Third(y, 0)]
  {
  }

  lemma Regroup(a: seq<Sextet>, b: seq<Sextet>, c: seq<Sextet>)
    ensures a + (b + c) == a + b + c
  {
  }

  lemma ShiftedUp(acc: int)
    requires 0 <= acc < WORD
    ensures acc * 16 % WORD % 64 == acc % 4 * 16
    ensures acc * 4 % WORD % 64 == acc % 16 * 4
  {
    Wraps(acc * 16);
    Wraps(acc * 4);
    DivMod(acc * 16, 64, acc / 4, acc % 4 * 16);
    DivMod(acc * 4, 64, acc / 16, acc % 16 * 4);
  }

  lemma Wraps(n: int)
    ensures n % WORD % 64 == n % 64
  {
    var q, r := n / WORD, n % WORD;
    assert n == WORD * q + r;
    DivMod(n, 64, 67_108_864 * q + r / 64, r % 64);
  }

  /** The source's loop: bytes go into a wrapping 32-bit word, sextets come out
      as soon as six bits are there. */
  method Encode(value: seq<Byte>) returns (out: string)
    ensures out == Text(Sextets(value))
  {
    hide Streamed, Shifted, Text;
    var accumulator: int, bits: nat := 0, 0;
    out := "";
    ghost var sextets: seq<Sextet> := [];
    StreamStart(value);
    for i := 0 to |value|
      invariant 0 <= accumulator < WORD && (bits == 0 || bits == 2 || bits == 4)
      invariant Streamed(value, i, accumulator, bits, sextets) && out == Text(sextets)
    {
      StreamStep(value, i, accumulator, bits, sextets);
      ShiftedLow(accumulator, value[i]);
      accumulator := Shifted(accumulator, value[i]);
      bits := bits + 8;
      ghost var before, full := sextets, bits;
      while bits >= 6
        invariant out == Text(sextets)
        invariant
          || (bits == full && sextets == before)
          || (bits == full - 6 && sextets == before + [accumulator / Power(bits) % 64])
          || (bits == 0 && full == 12 && sextets == before + [accumulator / Power(6) % 64, accumulator % 64])
      {
        bits := bits - 6;
        TextExtends(sextets, accumulator / Power(bits) % 64);
        out := out + [Symbol(accumulator / Power(bits) % 64)];
        sextets := sextets + [accumulator / Power(bits) % 64];
      }
    }
    LastSextet(value, accumulator, bits, sextets);
    if bits > 0 {
      ShiftedUp(accumulator);
      var last := accumulator * Power(6 - bits) % WORD % 64;
      assert Power(4) == 16 && Power(2) == 4;
      TextExtends(sextets, last);
      out := out + [Symbol(last)];
    }
  }

  lemma StreamStart(value: seq<Byte>)
    ensures Streamed(value, 0, 0, 0, []) && Text([]) == ""
  {
  }

  lemma TextExtends(s: seq<Sextet>, x: Sextet)
    ensures Text(s + [x]) == Text(s) + [Symbol(x)]
  {
  }
}
