/**
 * Public identifiers: a 128-bit id is written in Base62 and read back, next to UUID text.
 */
module Base62 {
  import opened Options
  import opened Pages

  /** 2 to the 128th; an id is below it. */
  const LIMIT: nat := 0x1_0000_0000_0000_0000_0000_0000_0000_0000

  datatype Error = Blank | InvalidChar | Overflow
  datatype Result = Ok(value: nat) | Err(error: Error)

  /** The alphabet: 0 to 9, then A to Z, then a to z. */
  function Digit(n: nat): (c: char)
    requires n < 62
    ensures Index(c) == Some(n)
  {
    if n < 10 then '0' + n as char else if n < 36 then 'A' + (n - 10) as char else 'a' + (n - 36) as char
  }

  function Index(c: char): (k: Option<nat>)
    ensures k.Some? ==> k.value < 62
  {
    if '0' <= c <= '9' then Some(c as int - '0' as int)
    else if 'A' <= c <= 'Z' then Some(c as int - 'A' as int + 10)
    else if 'a' <= c <= 'z' then Some(c as int - 'a' as int + 36)
    else None
  }

  predicate AllDigits(s: string) { forall i :: 0 <= i < |s| ==> Index(s[i]).Some? }

  // ---- writing -------------------------------------------------------------------------------------------

  /** The shortest numeral of `n`, most significant digit first. */
  function Numeral(n: nat): (s: string)
    ensures s != [] && AllDigits(s)
  {
    if n < 62 then [Digit(n)] else Numeral(n / 62) + [Digit(n % 62)]
  }

  method Encode(n: nat) returns (s: string)
    ensures s == Numeral(n)
  {
    if n == 0 { return [Digit(0)]; }
    var m: nat, out: string := n, [];
    while m != 0
      invariant m > 0 ==> Numeral(n) == Numeral(m) + Backwards(out)
      invariant m == 0 ==> Numeral(n) == Backwards(out)
      decreases m
    {
      BackwardsAppend(out, [Digit(m % 62)]);
      assert Backwards([Digit(m % 62)]) == [Digit(m % 62)];
      m, out := m / 62, out + [Digit(m % 62)];
    }
    s := Backwards(out);
  }

  // ---- reading -------------------------------------------------------------------------------------------

  function Value(s: string): nat
    requires AllDigits(s)
  {
    if s == [] then 0 else 62 * Value(s[..|s| - 1]) + Index(s[|s| - 1]).value
  }

  /** Python's str.isspace. */
  predicate IsSpace(c: char) {
    var u := c as int;
    9 <= u <= 13 || 28 <= u <= 32 || u == 0x85 || u == 0xA0 || u == 0x1680 || 0x2000 <= u <= 0x200A ||
    u == 0x2028 || u == 0x2029 || u == 0x202F || u == 0x205F || u == 0x3000
  }

  function Strip(s: string): string {
    if s == [] then []
    else if IsSpace(s[0]) then Strip(s[1..])
    else if IsSpace(s[|s| - 1]) then Strip(s[..|s| - 1])
    else s
  }

  /** The digits in front of the first character that is not one. */
  function Digits(s: string): (d: string)
    ensures AllDigits(d) && d <= s
    ensures |d| < |s| ==> Index(s[|d|]).None?
  {
    if s == [] || Index(s[0]).None? then [] else [s[0]] + Digits(s[1..])
  }

  /** What the decoder answers: the first of its three complaints, in reading order, or the value. */
  ghost predicate Decoded(text: string, r: Result) {
    var s := Strip(text);
    match r
    case Err(Blank) => s == []
    case Err(Overflow) => s != [] && Value(Digits(s)) >= LIMIT
    case Err(InvalidChar) => s != [] && Value(Digits(s)) < LIMIT && !AllDigits(s)
    case Ok(v) => s != [] && AllDigits(s) && v == Value(s) < LIMIT
  }

  method Decode(text: string) returns (r: Result)
    ensures Decoded(text, r)
  {
    var s := Strip(text);
    if s == [] { return Err(Blank); }
    var n: nat := 0;
    for i := 0 to |s|
      invariant AllDigits(s[..i]) && n == Value(s[..i]) < LIMIT
    {
      var k := Index(s[i]);
      if k.None? {
        DigitsAre(s, i);
        return Err(InvalidChar);
      }
      assert s[..i + 1][..i] == s[..i];
      n := n * 62 + k.value;
      if n >= LIMIT {
        PrefixOfDigits(s, i + 1);
        ValueGrows(Digits(s), i + 1);
        return Err(Overflow);
      }
    }
    assert s[..|s|] == s;
    return Ok(n);
  }

  lemma {:induction false} PrefixOfDigits(s: string, i: nat)
    requires i <= |s| && AllDigits(s[..i])
    ensures i <= |Digits(s)| && s[..i] == Digits(s)[..i]
  {
  }

  lemma DigitsAre(s: string, i: nat)
    requires i < |s| && AllDigits(s[..i]) && Index(s[i]).None?
    ensures Digits(s) == s[..i]
  {
    PrefixOfDigits(s, i);
    assert Digits(s) <= s;
  }

  /** Reading on never makes the number smaller. */
  lemma {:induction false} ValueGrows(s: string, i: nat)
    requires AllDigits(s) && i <= |s|
    ensures Value(s[..i]) <= Value(s)
  {
    if i < |s| {
      ValueGrows(s[..|s| - 1], i);
      assert s[..|s| - 1][..i] == s[..i];
    } else {
      assert s[..i] == s;
    }
  }

  /** There is one answer to every text. */
  lemma DecodedIsUnique(text: string, r: Result, r': Result)
    requires Decoded(text, r) && Decoded(text, r')
    ensures r == r'
  {
    var s := Strip(text);
    assert s[..|s|] == s;
    if AllDigits(s) {
      PrefixOfDigits(s, |s|);
      assert Digits(s) == s;
    }
    match r case Err(e) => {} case Ok(v) => {}
    match r' case Err(e) => {} case Ok(v) => {}
  }

  // ---- round trips ---------------------------------------------------------------------------------------

  lemma {:induction false} ValueOfNumeral(n: nat)
    ensures Value(Numeral(n)) == n
  {
    if n >= 62 {
      ValueOfNumeral(n / 62);
      var s := Numeral(n);
      assert s[..|s| - 1] == Numeral(n / 62);
    } else {
      assert Numeral(n)[..0] == [];
    }
  }

  /** A numeral without a leading zero is the one its value is written as. */
  lemma {:induction false} NumeralOfValue(s: string)
    requires AllDigits(s) && s != [] && (|s| == 1 || Index(s[0]) != Some(0))
    ensures Numeral(Value(s)) == s
    ensures Index(s[0]) != Some(0) ==> Value(s) > 0
  {
    var front, k := s[..|s| - 1], Index(s[|s| - 1]).value;
    assert s == front + [s[|s| - 1]] && Digit(k) == s[|s| - 1];
    if front != [] {
      NumeralOfValue(front);
      assert Value(s) / 62 == Value(front) && Value(s) % 62 == k;
    }
  }

  lemma {:induction false} StripsNothing(s: string)
    requires s != [] && AllDigits(s)
    ensures Strip(s) == s
  {
    assert !IsSpace(s[0]) && !IsSpace(s[|s| - 1]);
  }

  /** Writing an id and reading it back gives the id. */
  lemma DecodeInvertsEncode(id: nat, r: Result)
    requires id < LIMIT && Decoded(Numeral(id), r)
    ensures r == Ok(id)
  {
    StripsNothing(Numeral(id));
    ValueOfNumeral(id);
    DecodedIsUnique(Numeral(id), r, Ok(id));
  }

  function Power(k: nat): nat { if k == 0 then 1 else 62 * Power(k - 1) }

  lemma {:induction false} NumeralLength(n: nat, k: nat)
    requires k > 0 && n < Power(k)
    ensures |Numeral(n)| <= k
  {
    if n >= 62 { NumeralLength(n / 62, k - 1); }
  }

  /** An id takes at most 22 characters. */
  lemma EncodedLength(id: nat)
    requires id < LIMIT
    ensures |Numeral(id)| <= 22
  {
    assert Power(6) == 56800235584;
    assert Power(11) == 62 * 62 * 62 * 62 * 62 * 56800235584;
    assert Power(16) == 62 * 62 * 62 * 62 * 62 * Power(11);
    assert Power(21) == 62 * 62 * 62 * 62 * 62 * Power(16);
    NumeralLength(id, 22);
  }

  // ---- the two spellings -----------------------------------------------------------------------------------

  function RemoveAll(s: string, sub: string): (r: string)
    requires sub != []
    ensures |r| <= |s|
    decreases |s|
  {
    if s == [] then [] else if sub <= s then RemoveAll(s[|sub|..], sub) else [s[0]] + RemoveAll(s[1..], sub)
  }

  predicate IsBrace(c: char) { c == '{' || c == '}' }

  function StripBraces(s: string): (r: string)
    ensures |r| <= |s|
  {
    if s == [] then []
    else if IsBrace(s[0]) then StripBraces(s[1..])
    else if IsBrace(s[|s| - 1]) then StripBraces(s[..|s| - 1])
    else s
  }

  /** UUID(text): 32 characters remain once the decoration is off. `hex` is int(_, 16). */
  function UuidText(s: string, hex: string -> Option<int>): Option<nat> {
    var h := RemoveAll(StripBraces(RemoveAll(RemoveAll(s, "urn:"), "uuid:")), "-");
    if |h| != 32 || hex(h).None? || !(0 <= hex(h).value < LIMIT) then None else Some(hex(h).value)
  }

  /** Parsing a public id tries UUID text first and Base62 second. */
  method Parse(text: string, hex: string -> Option<int>) returns (r: Result)
    ensures Strip(text) == [] ==> r == Err(Blank)
    ensures Strip(text) != [] && UuidText(Strip(text), hex).Some? ==> r == Ok(UuidText(Strip(text), hex).value)
    ensures Strip(text) != [] && UuidText(Strip(text), hex).None? ==> Decoded(Strip(text), r)
  {
    var s := Strip(text);
    if s == [] { return Err(Blank); }
    var u := UuidText(s, hex);
    if u.Some? { return Ok(u.value); }
    r := Decode(s);
  }

  /** A Base62 id is too short for UUID text, so it is never taken for it, whatever `hex` accepts. */
  lemma EncodedIsNotUuidText(id: nat, hex: string -> Option<int>)
    requires id < LIMIT
    ensures UuidText(Strip(Numeral(id)), hex).None?
  {
    EncodedLength(id);
    StripsNothing(Numeral(id));
  }

  /** The id that goes out in a response is the id that the next request is about. */
  method PublishAndParse(id: nat, hex: string -> Option<int>) returns (r: Result)
    requires id < LIMIT
    ensures r == Ok(id)
  {
    var s := Encode(id);
    r := Parse(s, hex);
    EncodedIsNotUuidText(id, hex);
    StripsNothing(Numeral(id));
    DecodeInvertsEncode(id, r);
  }

  // ---- what is accepted ------------------------------------------------------------------------------------

  predicate AllSpace(s: string) { forall i :: 0 <= i < |s| ==> IsSpace(s[i]) }

  /** Blanks around a text do not matter. */
  lemma {:induction false} StripTrims(before: string, s: string, after: string)
    requires AllSpace(before) && AllSpace(after) && (s == [] || (!IsSpace(s[0]) && !IsSpace(s[|s| - 1])))
    ensures Strip(before + s + after) == s
    decreases |before| + |after|
  {
    var text := before + s + after;
    if before != [] {
      StripTrims(before[1..], s, after);
      assert text[1..] == before[1..] + s + after;
    } else if after != [] {
      if s == [] {
        StripTrims([], s, after[1..]);
        assert text[1..] == [] + s + after[1..];
      } else {
        StripTrims([], s, after[..|after| - 1]);
        assert text[..|text| - 1] == [] + s + after[..|after| - 1];
      }
    } else {
      assert text == s;
    }
  }

  predicate IsHex(c: char) { '0' <= c <= '9' || 'a' <= c <= 'f' || 'A' <= c <= 'F' }

  predicate HexOrHyphen(s: string) { forall i :: 0 <= i < |s| ==> IsHex(s[i]) || s[i] == '-' }

  lemma {:induction false} RemovesNothing(s: string, sub: string)
    requires sub != [] && forall i :: 0 <= i < |s| ==> s[i] != sub[0]
    ensures RemoveAll(s, sub) == s
  {
    if s != [] { RemovesNothing(s[1..], sub); }
  }

  lemma {:induction false} RemovesHyphens(s: string, t: string)
    requires forall i :: 0 <= i < |s| ==> s[i] != '-'
    ensures RemoveAll(s + t, "-") == s + RemoveAll(t, "-")
  {
    if s == [] {
      assert s + t == t;
    } else {
      RemovesHyphens(s[1..], t);
      assert (s + t)[1..] == s[1..] + t && (s + t)[0] == s[0];
      assert [s[0]] + (s[1..] + RemoveAll(t, "-")) == s + RemoveAll(t, "-");
    }
  }

  /** The usual form of a UUID: groups of 8, 4, 4, 4 and 12 characters. */
  function Hyphenated(h: string): string
    requires |h| == 32
  {
    h[..8] + ("-" + (h[8..12] + ("-" + (h[12..16] + ("-" + (h[16..20] + ("-" + h[20..])))))))
  }

  lemma HyphenGoes(s: string, t: string)
    requires forall i :: 0 <= i < |s| ==> s[i] != '-'
    ensures RemoveAll(s + ("-" + t), "-") == s + RemoveAll(t, "-")
  {
    RemovesHyphens(s, "-" + t);
    assert ("-" + t)[1..] == t;
  }

  lemma HyphensGo(h: string)
    requires |h| == 32 && forall i :: 0 <= i < |h| ==> IsHex(h[i])
    ensures RemoveAll(Hyphenated(h), "-") == h
  {
    HyphenGoes(h[..8], h[8..12] + ("-" + (h[12..16] + ("-" + (h[16..20] + ("-" + h[20..]))))));
    HyphenGoes(h[8..12], h[12..16] + ("-" + (h[16..20] + ("-" + h[20..]))));
    HyphenGoes(h[12..16], h[16..20] + ("-" + h[20..]));
    HyphenGoes(h[16..20], h[20..]);
    RemovesNothing(h[20..], "-");
    assert h == h[..8] + (h[8..12] + (h[12..16] + (h[16..20] + h[20..])));
  }

  lemma NoDecoration(s: string)
    requires s != [] && HexOrHyphen(s)
    ensures StripBraces(RemoveAll(RemoveAll(s, "urn:"), "uuid:")) == s
  {
    RemovesNothing(s, "urn:");
    RemovesNothing(s, "uuid:");
  }

  /** UUID text, hyphenated as usual or not at all, is read as its 32 hexadecimal digits. */
  lemma UuidTextIsRead(h: string, hex: string -> Option<int>)
    requires |h| == 32 && (forall i :: 0 <= i < |h| ==> IsHex(h[i])) && hex(h).Some? && 0 <= hex(h).value < LIMIT
    ensures UuidText(h, hex) == Some(hex(h).value) && UuidText(Hyphenated(h), hex) == Some(hex(h).value)
  {
    NoDecoration(h);
    NoDecoration(Hyphenated(h));
    RemovesNothing(h, "-");
    HyphensGo(h);
  }
}
