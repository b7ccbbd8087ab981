/** The text of a retry entry's member key, and why no two attempts share one. */
module MemberKeys {
  import opened Domain

  function HexDigit(d: nat): char
    requires d < 16
  {
    "0123456789abcdef"[d]
  }

  /** `width` lower-case hexadecimal digits, most significant first. */
  function Hex(n: nat, width: nat): (s: string)
    ensures |s| == width
  {
    if width == 0 then "" else Hex(n / 16, width - 1) + [HexDigit(n % 16)]
  }

  function Pow16(w: nat): nat {
    if w == 0 then 1 else 16 * Pow16(w - 1)
  }

  /** How a hexadecimal digit reads; capitals are not used. */
  function HexDigitValue(c: char): int {
    if '0' <= c <= '9' then c as int - '0' as int
    else if 'a' <= c <= 'f' then c as int - 'a' as int + 10
    else -1
  }

  function HexValue(s: string): int {
    if s == "" then 0 else 16 * HexValue(s[..|s| - 1]) + HexDigitValue(s[|s| - 1])
  }

  lemma {:induction false} DigitReads(d: nat)
    requires d < 16
    ensures HexDigitValue(HexDigit(d)) == d
  {
  }

  lemma {:induction false} OneMoreDigit(s: string, d: nat)
    requires d < 16
    ensures HexValue(s + [HexDigit(d)]) == 16 * HexValue(s) + d
  {
    hide HexDigitValue, HexDigit;
    DigitReads(d);
    assert (s + [HexDigit(d)])[..|s|] == s;
  }

  /** Read with the most significant digit first, the digits give the number back. */
  lemma {:induction false} HexReads(n: nat, w: nat)
    requires n < Pow16(w)
    ensures HexValue(Hex(n, w)) == n
    ensures forall i :: 0 <= i < w ==> 0 <= HexDigitValue(Hex(n, w)[i]) < 16
  {
    hide HexDigitValue, HexDigit, HexValue;
    if w > 0 {
      DigitReads(n % 16);
      HexReads(n / 16, w - 1);
      OneMoreDigit(Hex(n / 16, w - 1), n % 16);
    } else {
      NoDigits();
    }
  }

  lemma {:induction false} NoDigits()
    ensures HexValue("") == 0
  {
  }

  lemma {:induction false} UuidFits()
    ensures Pow16(32) == 0x1_0000_0000_0000_0000_0000_0000_0000_0000
  {
    assert Pow16(8) == 0x1_0000_0000;
    assert Pow16(16) == 0x1_0000_0000_0000_0000;
    assert Pow16(24) == 0x1_0000_0000_0000_0000_0000_0000;
  }

  /** The canonical form 8-4-4-4-12 of section 4 of RFC 9562. */
  function UuidText(u: Uuid): (s: string)
    ensures |s| == 36
  {
    var h := Hex(u, 32);
    h[..8] + "-" + h[8..12] + "-" + h[12..16] + "-" + h[16..20] + "-" + h[20..]
  }

  /** The digits can be read back out of the text. */
  lemma {:induction false} TextDigits(u: Uuid)
    ensures var s := UuidText(u);
            Hex(u, 32) == s[..8] + s[9..13] + s[14..18] + s[19..23] + s[24..]
  {
    var h, s := Hex(u, 32), UuidText(u);
    assert s[..8] == h[..8];
    assert s[9..13] == h[8..12];
    assert s[14..18] == h[12..16];
    assert s[19..23] == h[16..20];
    assert s[24..] == h[20..];
  }

  lemma {:induction false} TextAt(u: Uuid, i: nat)
    requires i < 36
    ensures if i in {8, 13, 18, 23} then UuidText(u)[i] == '-'
            else
              var dashes := if i < 8 then 0 else if i < 13 then 1 else if i < 18 then 2 else if i < 23 then 3 else 4;
              UuidText(u)[i] == Hex(u, 32)[i - dashes]
  {
    hide Hex;
  }

  /** The number an identifier's text stands for. */
  function UuidValue(s: string): int
    requires |s| == 36
  {
    HexValue(s[..8] + s[9..13] + s[14..18] + s[19..23] + s[24..])
  }

  /** The text is the number in lower-case hexadecimal digits, with dashes at the four
      places of the canonical form. */
  lemma {:induction false} UuidReads(u: Uuid)
    ensures var s := UuidText(u);
            && UuidValue(s) == u
            && forall i :: 0 <= i < 36 ==> if i in {8, 13, 18, 23} then s[i] == '-' else 0 <= HexDigitValue(s[i]) < 16
  {
    hide HexValue, HexDigitValue, UuidText;
    TextDigits(u);
    UuidFits();
    HexReads(u, 32);
    forall i | 0 <= i < 36
      ensures if i in {8, 13, 18, 23} then UuidText(u)[i] == '-' else 0 <= HexDigitValue(UuidText(u)[i]) < 16
    {
      TextAt(u, i);
    }
  }

  lemma {:induction false} UuidTextInjective(a: Uuid, b: Uuid)
    requires UuidText(a) == UuidText(b)
    ensures a == b
  {
    UuidReads(a);
    UuidReads(b);
  }

  function Decimal(n: nat): string {
    if n < 10 then ["0123456789"[n]] else Decimal(n / 10) + ["0123456789"[n % 10]]
  }

  function DecimalValue(s: string): int {
    if s == "" then 0 else 10 * DecimalValue(s[..|s| - 1]) + (s[|s| - 1] as int - '0' as int)
  }

  /** The decimal digits, most significant first and without leading zeros. */
  lemma {:induction false} DecimalReads(n: nat)
    ensures var s := Decimal(n);
            && DecimalValue(s) == n && s != ""
            && (forall i :: 0 <= i < |s| ==> '0' <= s[i] <= '9')
            && (n > 0 ==> s[0] != '0') && (n == 0 ==> s == "0")
  {
    if n >= 10 {
      DecimalReads(n / 10);
      var s := Decimal(n);
      assert s[..|s| - 1] == Decimal(n / 10);
    } else {
      assert DecimalValue("") == 0;
    }
  }

  /** `{event_id}:{endpoint_id}:{attempt_number}`. */
  function Member(k: Key): string {
    UuidText(k.pair.event) + ":" + UuidText(k.pair.endpoint) + ":" + Decimal(k.attempt)
  }

  /** The member can be read back: the event first, the endpoint second, the attempt last. */
  lemma {:induction false} MemberReads(k: Key)
    ensures var s := Member(k);
            && |s| > 74 && s[36] == ':' && s[73] == ':'
            && UuidValue(s[..36]) == k.pair.event
            && UuidValue(s[37..73]) == k.pair.endpoint
            && DecimalValue(s[74..]) == k.attempt
  {
    UuidReads(k.pair.event);
    UuidReads(k.pair.endpoint);
    DecimalReads(k.attempt);
    var s := Member(k);
    assert s[..36] == UuidText(k.pair.event);
    assert s[37..73] == UuidText(k.pair.endpoint);
    assert s[74..] == Decimal(k.attempt);
  }

  /** Distinct attempts print to distinct members. */
  lemma {:induction false} MemberInjective(k: Key, k': Key)
    requires Member(k) == Member(k')
    ensures k == k'
  {
    MemberReads(k);
    MemberReads(k');
  }

  /** The colons of a member stand exactly where the format puts them, so no text of
      an identifier can imitate a separator. */
  lemma {:induction false} MemberColons(k: Key, i: nat)
    requires i < |Member(k)|
    ensures Member(k)[i] == ':' <==> i == 36 || i == 73
  {
    DecimalReads(k.attempt);
    UuidReads(k.pair.event);
    UuidReads(k.pair.endpoint);
    var s := Member(k);
    if i < 36 {
      assert s[i] == UuidText(k.pair.event)[i];
    } else if 36 < i < 73 {
      assert s[i] == UuidText(k.pair.endpoint)[i - 37];
    } else if i > 73 {
      assert s[i] == Decimal(k.attempt)[i - 74];
    }
  }
}
