/**
 * UUIDs as the order backend uses them: `str(uuid)` gives the canonical
 * lower-case 8-4-4-4-12 hexadecimal form that names Firestore documents and
 * Stripe metadata, and `UUID(text)` parses text back, failing with ValueError.
 */
module Uuids {
  import opened Wrappers

  /** 2^128: a UUID is a 128-bit number. */
  const UUID_SPACE: nat := 0x1_0000_0000_0000_0000_0000_0000_0000_0000

  type U128 = n: nat | n < UUID_SPACE

  datatype Uuid = Uuid(bits: U128)

  function Pow16(k: nat): (r: nat)
    ensures r > 0
  {
    if k == 0 then 1 else 16 * Pow16(k - 1)
  }

  lemma Pow16Of32()
    ensures Pow16(32) == UUID_SPACE
  {
    assert Pow16(4) == 0x1_0000;
    assert Pow16(8) == 0x1_0000_0000 by { Pow16Add(4, 4); }
    assert Pow16(16) == 0x1_0000_0000_0000_0000 by { Pow16Add(8, 8); }
    Pow16Add(16, 16);
  }

  lemma {:induction false} Pow16Add(a: nat, b: nat)
    ensures Pow16(a + b) == Pow16(a) * Pow16(b)
  {
    if a > 0 {
      Pow16Add(a - 1, b);
    }
  }

  predicate IsHexDigit(c: char) {
    ('0' <= c <= '9') || ('a' <= c <= 'f') || ('A' <= c <= 'F')
  }

  predicate IsLowerHexDigit(c: char) {
    ('0' <= c <= '9') || ('a' <= c <= 'f')
  }

  /** The lower-case hexadecimal digit for `d`, as Python's `'%x'` writes it. */
  function HexChar(d: nat): (c: char)
    requires d < 16
    ensures IsLowerHexDigit(c)
  {
    if d < 10 then ('0' as int + d) as char else ('a' as int + d - 10) as char
  }

  /** The value of a hexadecimal digit, either case, as `int(text, 16)` reads it. */
  function DigitValue(c: char): (d: nat)
    requires IsHexDigit(c)
    ensures d < 16
  {
    if '0' <= c <= '9' then c as int - '0' as int
    else if 'a' <= c <= 'f' then c as int - 'a' as int + 10
    else c as int - 'A' as int + 10
  }

  lemma DigitValueOfHexChar(d: nat)
    requires d < 16
    ensures DigitValue(HexChar(d)) == d
  {
  }

  /** `n` written with exactly `width` lower-case hexadecimal digits, most significant first. */
  function HexDigits(n: nat, width: nat): (s: string)
    ensures |s| == width
    ensures forall i :: 0 <= i < |s| ==> IsLowerHexDigit(s[i])
  {
    if width == 0 then [] else HexDigits(n / 16, width - 1) + [HexChar(n % 16)]
  }

  /** A hexadecimal digit in lower case: `A`-`F` become `a`-`f`, anything else is kept. */
  function LowerHex(c: char): char {
    if 'A' <= c <= 'F' then (c as int - 'A' as int + 'a' as int) as char else c
  }

  /** Every character of `s` through `LowerHex`. */
  function LowerAll(s: string): (r: string)
    ensures |r| == |s|
  {
    if s == [] then [] else LowerAll(s[..|s| - 1]) + [LowerHex(s[|s| - 1])]
  }

  /** The number a string of hexadecimal digits denotes. */
  function HexValue(s: string): nat
    requires forall i :: 0 <= i < |s| ==> IsHexDigit(s[i])
  {
    if s == [] then 0 else 16 * HexValue(s[..|s| - 1]) + DigitValue(s[|s| - 1])
  }

  lemma {:induction false} HexValueBound(s: string)
    requires forall i :: 0 <= i < |s| ==> IsHexDigit(s[i])
    ensures HexValue(s) < Pow16(|s|)
  {
    if s != [] {
      HexValueBound(s[..|s| - 1]);
    }
  }

  lemma {:induction false} HexValueOfDigits(n: nat, width: nat)
    requires n < Pow16(width)
    ensures HexValue(HexDigits(n, width)) == n
  {
    if width > 0 {
      var s := HexDigits(n, width);
      assert s[..|s| - 1] == HexDigits(n / 16, width - 1);
      assert n / 16 < Pow16(width - 1);
      HexValueOfDigits(n / 16, width - 1);
      DigitValueOfHexChar(n % 16);
    }
  }

  lemma HexCharOfDigitValue(c: char)
    requires IsHexDigit(c)
    ensures HexChar(DigitValue(c)) == LowerHex(c)
  {
  }

  /** Writing the value of a digit string back with as many digits gives the string in lower case. */
  lemma {:induction false} DigitsOfHexValue(h: string)
    requires forall i :: 0 <= i < |h| ==> IsHexDigit(h[i])
    ensures HexDigits(HexValue(h), |h|) == LowerAll(h)
  {
    if h != [] {
      var init, c := h[..|h| - 1], h[|h| - 1];
      DigitsOfHexValue(init);
      HexCharOfDigitValue(c);
      assert HexValue(h) / 16 == HexValue(init) && HexValue(h) % 16 == DigitValue(c);
    }
  }

  /** `text.replace(pattern, "")`: every non-overlapping occurrence, leftmost first, removed. */
  function RemoveAll(text: string, pattern: string): (r: string)
    requires |pattern| > 0
    ensures |r| <= |text|
    decreases |text|
  {
    if text == [] then []
    else if |pattern| <= |text| && text[..|pattern|] == pattern then RemoveAll(text[|pattern|..], pattern)
    else [text[0]] + RemoveAll(text[1..], pattern)
  }

  lemma {:induction false} RemoveAllAbsent(text: string, pattern: string)
    requires |pattern| > 0
    requires forall i :: 0 <= i < |text| ==> text[i] != pattern[0]
    ensures RemoveAll(text, pattern) == text
    decreases |text|
  {
    if text != [] {
      if |pattern| <= |text| {
        assert text[..|pattern|][0] == text[0];
      }
      RemoveAllAbsent(text[1..], pattern);
    }
  }

  lemma {:induction false} RemoveCharAppend(a: string, b: string, c: char)
    ensures RemoveAll(a + b, [c]) == RemoveAll(a, [c]) + RemoveAll(b, [c])
    decreases |a|
  {
    if a == [] {
      assert a + b == b;
    } else {
      var ab := a + b;
      assert ab[1..] == a[1..] + b;
      assert ab[..1] == a[..1] == [a[0]];
      RemoveCharAppend(a[1..], b, c);
      if a[0] == c {
        assert RemoveAll(ab, [c]) == RemoveAll(ab[1..], [c]);
        assert RemoveAll(a, [c]) == RemoveAll(a[1..], [c]);
      } else {
        assert RemoveAll(ab, [c]) == [a[0]] + RemoveAll(ab[1..], [c]);
        assert RemoveAll(a, [c]) == [a[0]] + RemoveAll(a[1..], [c]);
      }
    }
  }

  /** `text.lstrip(chars)`. */
  function StripLeading(text: string, chars: set<char>): (r: string)
    ensures |r| <= |text|
  {
    if text != [] && text[0] in chars then StripLeading(text[1..], chars) else text
  }

  /** `text.rstrip(chars)`. */
  function StripTrailing(text: string, chars: set<char>): (r: string)
    ensures |r| <= |text|
  {
    if text != [] && text[|text| - 1] in chars then StripTrailing(text[..|text| - 1], chars) else text
  }

  /** `str(u)`: 32 lower-case hexadecimal digits grouped 8-4-4-4-12 by hyphens. */
  function UuidString(u: Uuid): (s: string)
    ensures |s| == 36
  {
    Grouped(HexDigits(u.bits, 32))
  }

  /** 32 digits grouped 8-4-4-4-12 by hyphens. */
  function Grouped(h: string): (s: string)
    requires |h| == 32
    ensures |s| == 36
  {
    h[..8] + "-" + h[8..12] + "-" + h[12..16] + "-" + h[16..20] + "-" + h[20..]
  }

  /** The clean-up `UUID(text)` does first: drop "urn:" and "uuid:", strip braces from both ends, drop hyphens. */
  function CleanHex(text: string): string {
    RemoveAll(StripTrailing(StripLeading(RemoveAll(RemoveAll(text, "urn:"), "uuid:"), {'{', '}'}), {'{', '}'}), "-")
  }

  /**
   * `UUID(text)`: after the clean-up, exactly 32 hexadecimal digits are
   * demanded; None stands for the ValueError the constructor raises
   * otherwise. The parsed UUID prints as those digits in lower case,
   * grouped 8-4-4-4-12.
   */
  function ParseUuid(text: string): (r: Option<Uuid>)
    ensures r.Some? <==> |CleanHex(text)| == 32 && forall i :: 0 <= i < 32 ==> IsHexDigit(CleanHex(text)[i])
    ensures r.Some? ==> UuidString(r.value) == Grouped(LowerAll(CleanHex(text)))
  {
    var h := CleanHex(text);
    if |h| == 32 && forall i :: 0 <= i < 32 ==> IsHexDigit(h[i]) then
      HexValueBound(h);
      Pow16Of32();
      DigitsOfHexValue(h);
      Some(Uuid(HexValue(h)))
    else
      None
  }

  /** Removing the hyphens of the canonical form leaves its 32 digits. */
  lemma DashesRemoved(h: string)
    requires |h| == 32
    requires forall i :: 0 <= i < |h| ==> h[i] != '-'
    ensures RemoveAll(Grouped(h), "-") == h
  {
    var p1, p2, p3, p4, p5 := h[..8], h[8..12], h[12..16], h[16..20], h[20..];
    RemoveAllAbsent(p1, "-");
    DashThenGroup(p1, p2);
    DashThenGroup(p1 + "-" + p2, p3);
    DashThenGroup(p1 + "-" + p2 + "-" + p3, p4);
    DashThenGroup(p1 + "-" + p2 + "-" + p3 + "-" + p4, p5);
    assert p1 + p2 + p3 + p4 + p5 == h;
  }

  /** A hyphen and a hyphen-free group appended: the group survives the removal unchanged. */
  lemma DashThenGroup(a: string, p: string)
    requires forall i :: 0 <= i < |p| ==> p[i] != '-'
    ensures RemoveAll(a + "-" + p, "-") == RemoveAll(a, "-") + p
  {
    var d := "-";
    RemoveAllAbsent(p, d);
    DashRemoved();
    RemoveCharAppend(a, d, '-');
    assert RemoveAll(a + d, d) == RemoveAll(a, d);
    RemoveCharAppend(a + d, p, '-');
  }

  lemma DashRemoved()
    ensures RemoveAll("-", "-") == []
  {
    var d := "-";
    assert d[..|d|] == d;
    assert RemoveAll(d, d) == RemoveAll(d[1..], d);
  }

  lemma GroupedChars(h: string)
    requires |h| == 32
    requires forall i :: 0 <= i < |h| ==> IsLowerHexDigit(h[i])
    ensures forall i :: 0 <= i < 36 ==> IsLowerHexDigit(Grouped(h)[i]) || Grouped(h)[i] == '-'
    ensures IsLowerHexDigit(Grouped(h)[0]) && IsLowerHexDigit(Grouped(h)[35])
  {
    var g := Grouped(h);
    forall i | 0 <= i < 36 ensures IsLowerHexDigit(g[i]) || g[i] == '-' {
      if i < 8 { assert g[i] == h[i]; }
      else if i == 8 || i == 13 || i == 18 || i == 23 { assert g[i] == '-'; }
      else if i < 13 { assert g[i] == h[i - 1]; }
      else if i < 18 { assert g[i] == h[i - 2]; }
      else if i < 23 { assert g[i] == h[i - 3]; }
      else { assert g[i] == h[i - 4]; }
    }
    assert g[35] == h[31];
  }

  /** Parsing the canonical form gives back the UUID it was written from. */
  lemma ParseUuidString(u: Uuid)
    ensures ParseUuid(UuidString(u)) == Some(u)
  {
    var s := UuidString(u);
    GroupedChars(HexDigits(u.bits, 32));
    RemoveAllAbsent(s, "urn:");
    RemoveAllAbsent(s, "uuid:");
    assert StripLeading(s, {'{', '}'}) == s;
    assert StripTrailing(s, {'{', '}'}) == s;
    DashesRemoved(HexDigits(u.bits, 32));
    Pow16Of32();
    HexValueOfDigits(u.bits, 32);
  }

  /** Distinct UUIDs have distinct canonical forms, so `str(order_id)` is a faithful key. */
  lemma UuidStringInjective(u: Uuid, v: Uuid)
    requires UuidString(u) == UuidString(v)
    ensures u == v
  {
    ParseUuidString(u);
    ParseUuidString(v);
  }
}
