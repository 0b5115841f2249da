/** The length-prefixed signing record: a decoder, and injectivity for every
    kind of payload built on it.  Strings are byte strings, one char per byte. */
module SigningRecord {
  import opened Optional
  import opened Division
  import opened Widths

  const DOMAIN: string := "p2pstream-agent-update-control-v1\0"

  // ---- Length prefixes ----

  function Low(n: int): char { (n % 256) as char }

  /** The big-endian 32-bit length; longer lengths are truncated. */
  function Prefix(n: nat): (p: string)
    ensures |p| == 4
  {
    var w := n % WORD;
    [Low(w / 16_777_216), Low(w / 65_536), Low(w / 256), Low(w)]
  }

  function PrefixValue(p: string): nat
    requires |p| == 4
  {
    p[0] as int * 16_777_216 + p[1] as int * 65_536 + p[2] as int * 256 + p[3] as int
  }

  lemma PrefixRoundTrip(n: nat)
    requires n < WORD
    ensures PrefixValue(Prefix(n)) == n
  {
    var a, b, c := n / 256, n / 65_536, n / 16_777_216;
    DivMod(n, WORD, 0, n);
    DivMod(n, 65_536, a / 256, a % 256 * 256 + n % 256);
    DivMod(n, 16_777_216, b / 256, b % 256 * 65_536 + n % 65_536);
    DivMod(c, 256, 0, c);
  }

  // ---- Records ----

  function Field(value: string): string { Prefix(|value|) + value }

  function Fields(values: seq<string>): string
  {
    if values == [] then "" else Field(values[0]) + Fields(values[1..])
  }

  function Record(name: string, values: seq<string>): string { DOMAIN + Fields([name] + values) }

  predicate Short(values: seq<string>) { forall i :: 0 <= i < |values| ==> |values[i]| < WORD }

  lemma {:induction false} FieldsExtend(values: seq<string>, last: string)
    ensures Fields(values + [last]) == Fields(values) + Field(last)
  {
    if values == [] {
      assert values + [last] == [last] && Fields([last][1..]) == "";
    } else {
      assert (values + [last])[1..] == values[1..] + [last];
      FieldsExtend(values[1..], last);
    }
  }

  /** The record as it is built: each value written after the domain in turn. */
  method Build(name: string, values: seq<string>) returns (out: string)
    ensures out == Record(name, values)
  {
    out := DOMAIN;
    out := out + Prefix(|name|);
    out := out + name;
    FieldsExtend([], name);
    assert [] + [name] == [name];
    for i := 0 to |values|
      invariant out == DOMAIN + Fields([name] + values[..i])
    {
      FieldsExtend([name] + values[..i], values[i]);
      assert [name] + values[..i + 1] == [name] + values[..i] + [values[i]];
      out := out + Prefix(|values[i]|);
      out := out + values[i];
    }
    assert values[..|values|] == values;
  }

  /** Reads the fields back, one length prefix at a time. */
  function Decoded(s: string): Option<seq<string>>
    decreases |s|
  {
    if s == "" then Some([])
    else if |s| < 4 then None
    else
      var n := PrefixValue(s[..4]);
      if |s| < 4 + n then None
      else
        var rest := Decoded(s[4 + n..]);
        if rest.None? then None else Some([s[4..4 + n]] + rest.value)
  }

  lemma DecodesFirst(v: string, rest: string)
    requires |v| < WORD && Decoded(rest).Some?
    ensures Decoded(Field(v) + rest) == Some([v] + Decoded(rest).value)
  {
    hide Prefix, PrefixValue;
    PrefixRoundTrip(|v|);
    var s := Field(v) + rest;
    assert s[..4] == Prefix(|v|) && s[4..4 + |v|] == v && s[4 + |v|..] == rest;
  }

  lemma {:induction false} DecodesFields(values: seq<string>)
    requires Short(values)
    ensures Decoded(Fields(values)) == Some(values)
  {
    if values != [] {
      hide Prefix, PrefixValue;
      DecodesFields(values[1..]);
      DecodesFirst(values[0], Fields(values[1..]));
      assert values == [values[0]] + values[1..];
    }
  }

  /** Records of short fields are equal only if their kind and fields are. */
  lemma RecordInjective(name: string, values: seq<string>, name': string, values': seq<string>)
    requires Short([name] + values) && Short([name'] + values') && Record(name, values) == Record(name', values')
    ensures name == name' && values == values'
  {
    var a, b := Fields([name] + values), Fields([name'] + values');
    assert a == (DOMAIN + a)[|DOMAIN|..] && b == (DOMAIN + b)[|DOMAIN|..];
    DecodesFields([name] + values);
    DecodesFields([name'] + values');
    assert ([name] + values)[0] == name && ([name'] + values')[0] == name';
    assert values == ([name] + values)[1..] && values' == ([name'] + values')[1..];
  }

  // ---- Numbers and byte strings as text ----

  function Digit(n: nat): char
    requires n < 10
  {
    '0' + n as char
  }

  function Digits(n: nat): (s: string)
    ensures s != "" && forall i :: 0 <= i < |s| ==> '0' <= s[i] <= '9'
  {
    if n < 10 then [Digit(n)] else Digits(n / 10) + [Digit(n % 10)]
  }

  function Number(s: string): int
  {
    if s == "" then 0 else Number(s[..|s| - 1]) * 10 + (s[|s| - 1] as int - '0' as int)
  }

  lemma {:induction false} DigitsRoundTrip(n: nat)
    ensures Number(Digits(n)) == n
  {
    if n < 10 {
      assert Digits(n)[..0] == "";
    } else {
      DigitsRoundTrip(n / 10);
      assert Digits(n)[..|Digits(n)| - 1] == Digits(n / 10);
    }
  }

  function Decimal(n: int): string { if n < 0 then "-" + Digits(-n) else Digits(n) }

  lemma DecimalInjective(a: int, b: int)
    requires Decimal(a) == Decimal(b)
    ensures a == b
  {
    assert Decimal(a)[0] == Decimal(b)[0];
    if a < 0 { assert Decimal(a)[1..] == Digits(-a) && Decimal(b)[1..] == Digits(-b); }
    DigitsRoundTrip(if a < 0 then -a else a);
    DigitsRoundTrip(if b < 0 then -b else b);
  }

  /** A decimal has at most as many digits as a bound on the number allows. */
  lemma {:induction false} DigitsShort(n: nat, k: nat)
    requires k >= 1 && n < Tens(k)
    ensures |Digits(n)| <= k
  {
    if n >= 10 && k > 1 {
      DivMod(n, 10, n / 10, n % 10);
      DigitsShort(n / 10, k - 1);
    }
  }

  function Tens(k: nat): nat { if k == 0 then 1 else 10 * Tens(k - 1) }

  predicate Int64(n: int) { -MAX_INT64 - 1 <= n <= MAX_INT64 }

  predicate Uint64(n: int) { 0 <= n <= 0xffff_ffff_ffff_ffff }

  lemma DecimalShort(n: int)
    requires Int64(n) || Uint64(n)
    ensures |Decimal(n)| <= 21
  {
    assert Tens(5) == 100_000;
    assert Tens(10) == 10_000_000_000;
    assert Tens(15) == 1_000_000_000_000_000;
    assert Tens(20) == 100_000_000_000_000_000_000;
    DigitsShort(if n < 0 then -n else n, 20);
  }

  function HexDigit(n: int): char
    requires 0 <= n < 16
  {
    if n < 10 then '0' + n as char else 'a' + (n - 10) as char
  }

  predicate IsBytes(b: string) { forall i :: 0 <= i < |b| ==> b[i] < 256 as char }

  function Hex(b: string): (s: string)
    requires IsBytes(b)
    ensures |s| == 2 * |b|
  {
    if b == "" then "" else [HexDigit(b[0] as int / 16), HexDigit(b[0] as int % 16)] + Hex(b[1..])
  }

  lemma {:induction false} HexInjective(a: string, b: string)
    requires IsBytes(a) && IsBytes(b) && Hex(a) == Hex(b)
    ensures a == b
  {
    assert |Hex(a)| == |Hex(b)|;
    if a != "" {
      assert Hex(a)[0] == Hex(b)[0] && Hex(a)[1] == Hex(b)[1] && Hex(a)[2..] == Hex(b)[2..];
      HexInjective(a[1..], b[1..]);
      assert a == [a[0]] + a[1..] && b == [b[0]] + b[1..];
    }
  }
}
