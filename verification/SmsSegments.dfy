/**
 * Billable SMS segments of a text (frontend/src/lib/smsSegments.ts).
 *
 * A text is what JavaScript holds: a sequence of UTF-16 code units, in which
 * surrogates may be unpaired. `for (const ch of text)` walks it by code points,
 * `text.length` counts code units; the two counts differ on surrogate pairs.
 */
module SmsSegments {

  type CodeUnit = u: int | 0 <= u < 0x1_0000
  type Text = seq<CodeUnit>

  datatype Option<T> = None | Some(value: T)

  /** The basic 7-bit alphabet of 3GPP TS 23.038 section 6.2.1, one septet each. */
  predicate IsBasic(c: int) {
    || c == 0x0A || c == 0x0D
    || 0x20 <= c <= 0x23 || 0x25 <= c <= 0x3F || c == 0x24
    || c == 0x40 || 0x41 <= c <= 0x5A || c == 0x5F || 0x61 <= c <= 0x7A
    || c in {0xA1, 0xA3, 0xA4, 0xA5, 0xA7, 0xBF}
    || c in {0xC4, 0xC5, 0xC6, 0xC7, 0xC9, 0xD1, 0xD6, 0xD8, 0xDC, 0xDF}
    || c in {0xE0, 0xE4, 0xE5, 0xE6, 0xE8, 0xE9, 0xEC, 0xF1, 0xF2, 0xF6, 0xF8, 0xF9, 0xFC}
    || c in {0x393, 0x394, 0x398, 0x39B, 0x39E, 0x3A0, 0x3A3, 0x3A6, 0x3A8, 0x3A9}
  }

  /** The extension table of section 6.2.1.1: an escape septet and a second one. */
  predicate IsExtended(c: int) {
    c in {0x5B, 0x5C, 0x5D, 0x5E, 0x7B, 0x7C, 0x7D, 0x7E, 0x20AC}
  }

  predicate Representable(c: int) { IsBasic(c) || IsExtended(c) }

  /** Code units taken by the code point that starts at `i`. */
  function Width(text: Text, i: nat): (w: nat)
    requires i < |text|
    ensures 1 <= w <= 2 && i + w <= |text|
  {
    if 0xD800 <= text[i] < 0xDC00 && i + 1 < |text| && 0xDC00 <= text[i + 1] < 0xE000 then 2 else 1
  }

  function CodePointAt(text: Text, i: nat): int
    requires i < |text|
  {
    var high: int := text[i];
    if Width(text, i) == 2 then
      var low: int := text[i + 1];
      0x1_0000 + (high - 0xD800) * 0x400 + (low - 0xDC00)
    else
      high
  }

  /** Every code unit is a GSM-7 character by itself. */
  ghost predicate Gsm7(text: Text) {
    forall i :: 0 <= i < |text| ==> Representable(text[i])
  }

  /** Septets of the code points from `i` on, an extended one counting twice. */
  ghost function SeptetsFrom(text: Text, i: nat): (n: nat)
    requires i <= |text|
    decreases |text| - i
  {
    if i == |text| then 0
    else (if IsExtended(CodePointAt(text, i)) then 2 else 1) + SeptetsFrom(text, i + Width(text, i))
  }

  /** The walk by code points decides a property of the code units. */
  method IsGsm7(text: Text) returns (r: bool)
    ensures r <==> Gsm7(text)
  {
    var i := 0;
    while i < |text|
      invariant 0 <= i <= |text|
      invariant forall k :: 0 <= k < i ==> Representable(text[k])
    {
      if !IsBasic(CodePointAt(text, i)) && !IsExtended(CodePointAt(text, i)) {
        assert !Representable(text[i]);
        return false;
      }
      i := i + Width(text, i);
    }
    r := true;
  }

  method SeptetLength(text: Text) returns (n: nat)
    ensures n == SeptetsFrom(text, 0)
  {
    n := 0;
    var i := 0;
    while i < |text|
      invariant 0 <= i <= |text|
      invariant n + SeptetsFrom(text, i) == SeptetsFrom(text, 0)
    {
      n := n + (if IsExtended(CodePointAt(text, i)) then 2 else 1);
      i := i + Width(text, i);
    }
  }

  function Max(a: int, b: int): int { if a < b then b else a }

  /** Capacities of a lone segment and of each part of a concatenated message. */
  datatype Caps = Caps(single: nat, multi: nat)

  function GsmCaps(reserved: nat): Caps { Caps(Max(1, 160 - reserved), Max(1, 153 - reserved)) }

  function UcsCaps(reserved: nat): Caps { Caps(Max(1, 70 - reserved), Max(1, 67 - reserved)) }

  function Ceil(len: nat, cap: nat): nat
    requires cap > 0
  {
    (len + cap - 1) / cap
  }

  function Count(len: nat, caps: Caps): nat
    requires caps.multi > 0
  {
    if len <= caps.single then 1 else Ceil(len, caps.multi)
  }

  ghost function Caps7or16(text: Text, reserved: nat): (c: Caps)
    ensures c.single >= c.multi > 0
  {
    if Gsm7(text) then GsmCaps(reserved) else UcsCaps(reserved)
  }

  ghost function Length7or16(text: Text): nat {
    if Gsm7(text) then SeptetsFrom(text, 0) else |text|
  }

  ghost function Segments(text: Text, reserved: nat): nat {
    Count(Length7or16(text), Caps7or16(text, reserved))
  }

  method SmsSegmentCount(text: Option<Text>, reservedSuffixChars: Option<int>) returns (r: nat)
    ensures var s := if text.Some? then text.value else [];
            var k := if reservedSuffixChars.Some? then Max(0, reservedSuffixChars.value) else 0;
            r == Segments(s, k)
  {
    var reserved: nat := Max(0, if reservedSuffixChars.Some? then reservedSuffixChars.value else 0);
    var s := if text.Some? then text.value else [];
    var gsm := IsGsm7(s);
    if gsm {
      var len := SeptetLength(s);
      r := Count(len, GsmCaps(reserved));
    } else {
      r := Count(|s|, UcsCaps(reserved));
    }
  }

  // ---------------------------------------------------------------- meaning

  /** `k` segments are enough for a text of this length. */
  ghost predicate Fits(len: nat, caps: Caps, k: nat) {
    if k == 1 then len <= caps.single else len <= k * caps.multi
  }

  lemma CeilIsLeast(len: nat, cap: nat, k: nat)
    requires cap > 0
    ensures len <= k * cap <==> Ceil(len, cap) <= k
  {
    var c := Ceil(len, cap);
    assert c * cap <= len + cap - 1 < c * cap + cap;
    if c <= k {
      assert c * cap <= k * cap;
    } else {
      assert k * cap <= (c - 1) * cap;
    }
  }

  /** The count is the least positive number of segments that holds the text. */
  lemma CountIsLeast(text: Text, reserved: nat)
    ensures Segments(text, reserved) >= 1
    ensures Fits(Length7or16(text), Caps7or16(text, reserved), Segments(text, reserved))
    ensures forall k | 1 <= k < Segments(text, reserved) ::
              !Fits(Length7or16(text), Caps7or16(text, reserved), k)
  {
    var len, caps := Length7or16(text), Caps7or16(text, reserved);
    CeilIsLeast(len, caps.multi, Ceil(len, caps.multi));
    forall k | 1 <= k < Segments(text, reserved)
      ensures !Fits(len, caps, k)
    {
      CeilIsLeast(len, caps.multi, k);
    }
  }

  /**
   * The capacities, for any reserve: GSM-7 text fits one segment of 160 septets or parts of 153,
   * other text one of 70 code units or parts of 67, less the reserve and never below one.
   */
  lemma FitsIff(text: Text, reserved: nat, k: nat)
    requires k >= 1
    ensures Gsm7(text) ==>
              (Segments(text, reserved) <= k
               <==> || SeptetsFrom(text, 0) <= (if reserved < 160 then 160 - reserved else 1)
                    || (k >= 2 && SeptetsFrom(text, 0) <= k * (if reserved < 153 then 153 - reserved else 1)))
    ensures !Gsm7(text) ==>
              (Segments(text, reserved) <= k
               <==> || |text| <= (if reserved < 70 then 70 - reserved else 1)
                    || (k >= 2 && |text| <= k * (if reserved < 67 then 67 - reserved else 1)))
  {
    var len, caps := Length7or16(text), Caps7or16(text, reserved);
    CeilIsLeast(len, caps.multi, k);
    if len > caps.single && k == 1 { CeilIsLeast(len, caps.multi, 1); }
  }

  ghost function Escapes(text: Text, i: nat): set<int>
    requires i <= |text|
  {
    set j | i <= j < |text| && text[j] in {0x5B, 0x5C, 0x5D, 0x5E, 0x7B, 0x7C, 0x7D, 0x7E, 0x20AC}
  }

  lemma OneMoreUnit(text: Text, i: nat)
    requires i < |text|
    ensures |Escapes(text, i)| == |Escapes(text, i + 1)| + (if IsExtended(text[i]) then 1 else 0)
  {
    if IsExtended(text[i]) {
      assert Escapes(text, i) == Escapes(text, i + 1) + {i as int};
    } else {
      assert Escapes(text, i) == Escapes(text, i + 1);
    }
  }

  /** GSM-7 text takes a septet for each code unit and one more for each of `[ \\ ] ^ { | } ~` and the euro sign. */
  lemma {:induction false} SeptetsCountEscapes(text: Text, i: nat)
    requires Gsm7(text) && i <= |text|
    ensures SeptetsFrom(text, i) == (|text| - i) + |Escapes(text, i)|
    decreases |text| - i
  {
    if i < |text| {
      UnitIsPoint(text, i);
      SeptetsCountEscapes(text, i + 1);
      OneMoreUnit(text, i);
    } else {
      assert Escapes(text, i) == {};
    }
  }

  /** The basic alphabet in the order of the standard's table, row by row, without its escape. */
  predicate InTable(c: int) {
    || c in {0x40, 0xA3, 0x24, 0xA5, 0xE8, 0xE9, 0xF9, 0xEC, 0xF2, 0xC7, 0x0A, 0xD8, 0xF8, 0x0D, 0xC5, 0xE5}
    || c in {0x394, 0x5F, 0x3A6, 0x393, 0x39B, 0x3A9, 0x3A0, 0x3A8, 0x3A3, 0x398, 0x39E, 0xC6, 0xE6, 0xDF, 0xC9}
    || c in {0x20, 0x21, 0x22, 0x23, 0xA4, 0x25, 0x26, 0x27, 0x28, 0x29, 0x2A, 0x2B, 0x2C, 0x2D, 0x2E, 0x2F}
    || c in {0x30, 0x31, 0x32, 0x33, 0x34, 0x35, 0x36, 0x37, 0x38, 0x39, 0x3A, 0x3B, 0x3C, 0x3D, 0x3E, 0x3F}
    || c in {0xA1, 0x41, 0x42, 0x43, 0x44, 0x45, 0x46, 0x47, 0x48, 0x49, 0x4A, 0x4B, 0x4C, 0x4D, 0x4E, 0x4F}
    || c in {0x50, 0x51, 0x52, 0x53, 0x54, 0x55, 0x56, 0x57, 0x58, 0x59, 0x5A, 0xC4, 0xD6, 0xD1, 0xDC, 0xA7}
    || c in {0xBF, 0x61, 0x62, 0x63, 0x64, 0x65, 0x66, 0x67, 0x68, 0x69, 0x6A, 0x6B, 0x6C, 0x6D, 0x6E, 0x6F}
    || c in {0x70, 0x71, 0x72, 0x73, 0x74, 0x75, 0x76, 0x77, 0x78, 0x79, 0x7A, 0xE4, 0xF6, 0xF1, 0xFC, 0xE0}
  }

  /** The character classes are that table. */
  lemma BasicIsTheTable(c: int)
    ensures IsBasic(c) <==> InTable(c)
  {
  }

  // ----------------------------------------------------------- monotonicity

  /** On GSM-7 text every code unit is a code point of one or two septets. */
  lemma {:induction false} SeptetBounds(text: Text, i: nat)
    requires Gsm7(text) && i <= |text|
    ensures |text| - i <= SeptetsFrom(text, i) <= 2 * (|text| - i)
    decreases |text| - i
  {
    if i < |text| {
      assert Representable(text[i]);
      SeptetBounds(text, i + 1);
    }
  }

  /** Appending to GSM-7 text never loses septets. */
  lemma {:induction false} SeptetsGrow(text: Text, more: Text, i: nat)
    requires Gsm7(text + more) && i <= |text|
    ensures Gsm7(text)
    ensures SeptetsFrom(text, i) <= SeptetsFrom(text + more, i)
    decreases |text| - i
  {
    PrefixIsGsm7(text, more);
    if i < |text| {
      var all := text + more;
      assert all[i] == text[i];
      UnitIsPoint(text, i);
      UnitIsPoint(all, i);
      SeptetsGrow(text, more, i + 1);
    }
  }

  /** Representable units are no surrogates. */
  lemma UnitIsPoint(text: Text, i: nat)
    requires Gsm7(text) && i < |text|
    ensures Width(text, i) == 1 && CodePointAt(text, i) == text[i] as int
  {
    assert Representable(text[i]);
  }

  lemma PrefixIsGsm7(text: Text, more: Text)
    requires Gsm7(text + more)
    ensures Gsm7(text)
  {
    forall k | 0 <= k < |text| ensures Representable(text[k]) { assert (text + more)[k] == text[k]; }
  }

  lemma CountMonotone(len: nat, caps: Caps, len': nat, caps': Caps)
    requires caps.multi > 0 && caps'.multi > 0
    requires len > caps.single ==> len' > caps'.single
    requires len > caps.single ==> len * caps'.multi <= len' * caps.multi
    requires caps'.multi <= caps'.single
    ensures Count(len, caps) <= Count(len', caps')
  {
    var m, m' := caps.multi, caps'.multi;
    if len' <= caps'.single {
    } else if len <= caps.single {
      CeilIsLeast(len', m', 0);
    } else {
      var k := Ceil(len', m');
      CeilIsLeast(len', m', k);
      CeilIsLeast(len, m, k);
      ScaleDown(len, m, len', m', k);
    }
  }

  lemma ScaleDown(len: nat, m: nat, len': nat, m': nat, k: nat)
    requires m > 0 && m' > 0 && len * m' <= len' * m && len' <= k * m'
    ensures len <= k * m
  {
  }

  lemma Products(septets: nat, part: nat, units: nat, gsmPart: nat)
    requires septets <= 2 * units && 2 * part <= gsmPart
    ensures septets * part <= units * gsmPart
  {
    assert septets * part <= 2 * units * part;
    assert units * (2 * part) <= units * gsmPart;
  }

  /** The encoding switch: a septet text made UCS-2 by one character is never cheaper. */
  lemma SwitchNeverCheaper(septets: nat, units: nat, units': nat, r: nat)
    requires r <= 151 && septets <= 2 * units && units < units'
    ensures Count(septets, GsmCaps(r)) <= Count(units', UcsCaps(r))
  {
    var g, u := GsmCaps(r), UcsCaps(r);
    assert 2 * u.multi <= g.multi && 2 * (u.single - 1) <= g.single;
    Products(septets, u.multi, units', g.multi);
    CountMonotone(septets, g, units', u);
  }

  /** Appending any code units never lowers the count, switch of encoding included. */
  lemma AppendNeverCheaper(text: Text, more: Text, reserved: nat)
    requires reserved <= 151
    ensures Segments(text, reserved) <= Segments(text + more, reserved)
  {
    var all := text + more;
    if more == [] {
      assert all == text;
    } else if Gsm7(all) {
      SeptetsGrow(text, more, 0);
      GrowthInOneEncoding(SeptetsFrom(text, 0), SeptetsFrom(all, 0), GsmCaps(reserved));
    } else if Gsm7(text) {
      SeptetBounds(text, 0);
      SwitchNeverCheaper(SeptetsFrom(text, 0), |text|, |all|, reserved);
    } else {
      var k :| 0 <= k < |text| && !Representable(text[k]);
      assert all[k] == text[k];
      GrowthInOneEncoding(|text|, |all|, UcsCaps(reserved));
    }
  }

  lemma GrowthInOneEncoding(len: nat, len': nat, caps: Caps)
    requires len <= len' && 0 < caps.multi <= caps.single
    ensures Count(len, caps) <= Count(len', caps)
  {
    assert len * caps.multi <= len' * caps.multi;
    CountMonotone(len, caps, len', caps);
  }

  const EURO: CodeUnit := 0x20AC
  const S_CEDILLA: CodeUnit := 0x15F

  /** Five euro signs are ten septets; one more letter makes them six UCS-2 units. */
  lemma CheaperAfterAppend(reserved: nat)
    requires reserved >= 152
    ensures var text := [EURO, EURO, EURO, EURO, EURO];
            Segments(text, reserved) == 10 && Segments(text + [S_CEDILLA], reserved) == 6
  {
    var text := [EURO, EURO, EURO, EURO, EURO];
    assert SeptetsFrom(text, 5) == 0;
    assert SeptetsFrom(text, 4) == 2;
    assert SeptetsFrom(text, 3) == 4;
    assert SeptetsFrom(text, 2) == 6;
    assert SeptetsFrom(text, 1) == 8;
    assert SeptetsFrom(text, 0) == 10;
    var all := text + [S_CEDILLA];
    assert !Representable(all[5]);
    assert Length7or16(all) == 6;
  }

  ghost predicate AppendMonotone(reserved: nat) {
    forall text: Text, more: Text :: Segments(text, reserved) <= Segments(text + more, reserved)
  }

  /** The counter is monotone in the text exactly up to a reserve of 151. */
  lemma AppendMonotoneIffReserve(reserved: nat)
    ensures AppendMonotone(reserved) <==> reserved <= 151
  {
    if reserved <= 151 {
      forall text: Text, more: Text ensures Segments(text, reserved) <= Segments(text + more, reserved) {
        AppendNeverCheaper(text, more, reserved);
      }
    } else {
      CheaperAfterAppend(reserved);
      var text: Text := [EURO, EURO, EURO, EURO, EURO];
      assert Segments(text, reserved) > Segments(text + [S_CEDILLA], reserved);
    }
  }

  lemma TimesMonotone(n: nat, a: nat, b: nat)
    requires a <= b
    ensures n * a <= n * b
  {
  }

  /** A larger reserve never lowers the count, for every text. */
  lemma ReserveNeverCheaper(text: Text, reserved: nat, more: nat)
    requires reserved <= more
    ensures Segments(text, reserved) <= Segments(text, more)
  {
    var len := Length7or16(text);
    var caps, caps' := Caps7or16(text, reserved), Caps7or16(text, more);
    TimesMonotone(len, caps'.multi, caps.multi);
    assert len > caps.single ==> len > caps'.single;
    CountMonotone(len, caps, len, caps');
  }
}
