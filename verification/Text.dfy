/** The string operations the backend relies on, with Python's meaning: `strip` over its
    whitespace characters, `strip` over one character, and decimal digits. */
module Text {
  import opened Common

  /** Characters `str.strip()` removes. */
  predicate IsSpace(c: char) {
    || '\U{9}' <= c <= '\U{D}' || '\U{1C}' <= c <= ' '
    || c == '\U{85}' || c == '\U{A0}' || c == '\U{1680}' || '\U{2000}' <= c <= '\U{200A}'
    || c == '\U{2028}' || c == '\U{2029}' || c == '\U{202F}' || c == '\U{205F}' || c == '\U{3000}'
  }

  function LStrip(s: string, drop: char -> bool): string {
    if s != "" && drop(s[0]) then LStrip(s[1..], drop) else s
  }

  function RStrip(s: string, drop: char -> bool): string {
    if s != "" && drop(s[|s| - 1]) then RStrip(s[..|s| - 1], drop) else s
  }

  function Strip(s: string, drop: char -> bool): string {
    RStrip(LStrip(s, drop), drop)
  }

  /** Nothing at either end to strip. */
  predicate Trimmed(s: string, drop: char -> bool) {
    s == "" || (!drop(s[0]) && !drop(s[|s| - 1]))
  }

  lemma {:induction false} LStripEnds(s: string, drop: char -> bool)
    ensures var r := LStrip(s, drop); |r| <= |s| && (r != "" ==> !drop(r[0]) && r[|r| - 1] == s[|s| - 1])
    decreases |s|
  {
    if s == "" {
    } else if drop(s[0]) {
      LStripEnds(s[1..], drop);
    }
  }

  lemma {:induction false} RStripEnds(s: string, drop: char -> bool)
    ensures var r := RStrip(s, drop); |r| <= |s| && (r != "" ==> !drop(r[|r| - 1]) && r[0] == s[0])
    decreases |s|
  {
    if s == "" {
    } else if drop(s[|s| - 1]) {
      RStripEnds(s[..|s| - 1], drop);
    }
  }

  /** Stripping leaves a trimmed string, and only trimmed strings are left alone. */
  lemma StripTrims(s: string, drop: char -> bool)
    ensures Trimmed(Strip(s, drop), drop)
    ensures Strip(s, drop) == s <==> Trimmed(s, drop)
  {
    LStripEnds(s, drop);
    RStripEnds(LStrip(s, drop), drop);
  }

  // ---- decimal numbers ----

  predicate IsDigit(c: char) {
    '0' <= c <= '9'
  }

  predicate AllDigits(s: string) {
    forall i :: 0 <= i < |s| ==> IsDigit(s[i])
  }

  function DigitOf(d: nat): (c: char)
    requires d < 10
    ensures IsDigit(c) && c as int == '0' as int + d
  {
    '0' + (d as char)
  }

  function Decimal(n: nat): (s: string)
    ensures s != "" && AllDigits(s)
  {
    if n < 10 then [DigitOf(n)] else Decimal(n / 10) + [DigitOf(n % 10)]
  }

  function ValueOf(s: string): nat
    requires AllDigits(s)
  {
    if s == "" then 0 else 10 * ValueOf(s[..|s| - 1]) + (s[|s| - 1] as int - '0' as int)
  }

  lemma {:induction false} DecimalValue(n: nat)
    ensures ValueOf(Decimal(n)) == n
  {
    if n < 10 {
      assert Decimal(n)[..0] == "";
    } else {
      DecimalValue(n / 10);
      assert Decimal(n)[..|Decimal(n)| - 1] == Decimal(n / 10);
    }
  }
}
