/** Peso text in, centavos out, and back. */
module Money {
  import opened Prelude
  import opened Text

  const MAX_ENTRY_CENTAVOS: int := 100_000_000_000

  datatype MoneyError = Empty | Range | Grouping | Unparseable(raw: string) | NotFinite | NonPositive | ExceedsCap

  datatype Parsed = Amount(centavos: Centavos) | Rejected(why: MoneyError)

  // ---------------------------------------------------------------- numbers as text

  predicate Digits(s: string) {
    forall i :: 0 <= i < |s| ==> IsDigit(s[i])
  }

  function DigitOf(n: nat): (c: char)
    requires n < 10
    ensures IsDigit(c)
  {
    '0' + n as char
  }

  /** `u64::to_string`. */
  function ToDigits(n: nat): (s: string)
    ensures |s| > 0 && Digits(s)
  {
    if n < 10 then [DigitOf(n)] else ToDigits(n / 10) + [DigitOf(n % 10)]
  }

  function Value(s: string): nat
    requires Digits(s)
  {
    if s == "" then 0 else 10 * Value(s[..|s| - 1]) + (s[|s| - 1] as int - '0' as int)
  }

  lemma {:induction false} ValueOfDigits(n: nat)
    ensures Value(ToDigits(n)) == n
  {
    if n >= 10 {
      ValueOfDigits(n / 10);
      assert ToDigits(n)[..|ToDigits(n)| - 1] == ToDigits(n / 10);
    }
  }

  // ---------------------------------------------------------------- printing

  /** Commas every three digits counted from the right. */
  function Group(raw: string): string {
    if |raw| <= 1 then raw
    else [raw[0]] + (if (|raw| - 1) % 3 == 0 then "," else "") + Group(raw[1..])
  }

  function TwoDigits(n: nat): string
    requires n < 100
  {
    [DigitOf(n / 10), DigitOf(n % 10)]
  }

  function Abs(c: int): nat {
    if c < 0 then -c else c
  }

  function FormatPhp(c: Centavos): string {
    (if c < 0 then "-" else "") + "₱" + Group(ToDigits(Abs(c) / 100)) + "." + TwoDigits(Abs(c) % 100)
  }

  function Reversed(s: string): (r: string)
    ensures |r| == |s| && forall i :: 0 <= i < |s| ==> r[i] == s[|s| - 1 - i]
  {
    seq(|s|, i requires 0 <= i < |s| => s[|s| - 1 - i])
  }

  lemma GroupOfNothing()
    ensures Reversed("") == "" && Group("") == ""
  {
  }

  lemma ReversedPush(s: string, c: char)
    ensures Reversed(s + [c]) == [c] + Reversed(s)
  {
  }

  /** One more digit in front of a grouped number. */
  lemma GroupPush(c: char, done: string)
    ensures Group([c] + done) == [c] + (if done != "" && |done| % 3 == 0 then "," else "") + Group(done)
  {
    assert ([c] + done)[1..] == done;
    if done == "" {
      assert [c] + "" + "" == [c] + done;
    }
  }

  /** The source's loop: walk the digits right to left, a comma before every third. */
  method GroupThousands(value: nat) returns (result: string)
    ensures result == Group(ToDigits(value))
  {
    hide ToDigits, Group;
    var raw := ToDigits(value);
    var reversed := Reversed(raw);
    var out := "";
    GroupOfNothing();
    assert raw[|raw| - 0..] == "";
    for idx := 0 to |raw|
      invariant Reversed(out) == Group(raw[|raw| - idx..])
    {
      hide Reversed;
      ghost var done := raw[|raw| - idx..];
      assert raw[|raw| - idx - 1..] == [reversed[idx]] + done;
      GroupPush(reversed[idx], done);
      ReversedPush(out, ',');
      ReversedPush(out, reversed[idx]);
      ReversedPush(out + ",", reversed[idx]);
      if idx > 0 && idx % 3 == 0 {
        out := out + ",";
      }
      out := out + [reversed[idx]];
    }
    assert raw[0..] == raw;
    result := Reversed(out);
  }

  // ---------------------------------------------------------------- parsing

  function DropSpaces(s: string): string {
    if s == "" then "" else (if IsSpace(s[0]) then "" else [s[0]]) + DropSpaces(s[1..])
  }

  /** Lower-case, without currency words and without whitespace. */
  function Clean(raw: string): string {
    var s := Lower(Trim(raw));
    Trim(DropSpaces(Replace(Replace(Replace(Replace(s, "₱", ""), "php", ""), "pesos", ""), "peso", "")))
  }

  predicate IsDash(c: char) {
    c == '-' || c == '–' || c == '—'
  }

  /** RANGE_RE on a text without whitespace: a digit, a dash or `to`, a digit. */
  predicate LooksLikeRange(s: string) {
    exists i :: 0 <= i < |s| - 2 && IsDigit(s[i])
      && ((IsDash(s[i + 1]) && IsDigit(s[i + 2]))
          || (i + 3 < |s| && s[i + 1] == 't' && s[i + 2] == 'o' && IsDigit(s[i + 3])))
  }

  function SuffixExponent(s: string): nat {
    if s != "" && s[|s| - 1] == 'k' then 3 else if s != "" && s[|s| - 1] == 'm' then 6 else 0
  }

  function DropSuffix(s: string): string {
    if SuffixExponent(s) > 0 then s[..|s| - 1] else s
  }

  /** A trailing dot goes, a leading one gets its zero. */
  function FixDots(s: string): string {
    var t := if s != "" && s[|s| - 1] == '.' then s[..|s| - 1] else s;
    if t != "" && t[0] == '.' then "0" + t else t
  }

  predicate Fraction(s: string) {
    |s| > 1 && s[0] == '.' && Digits(s[1..])
  }

  /** `(,\d{3})+(\.\d+)?$` */
  predicate GroupTail(s: string) {
    && |s| >= 4 && s[0] == ',' && Digits(s[1..4])
    && (s[4..] == "" || Fraction(s[4..]) || GroupTail(s[4..]))
  }

  /** GROUPED_RE */
  predicate IsGrouped(s: string) {
    exists k :: 1 <= k <= 3 && k <= |s| && Digits(s[..k]) && GroupTail(s[k..])
  }

  function DigitRun(s: string): (n: nat)
    ensures n <= |s| && Digits(s[..n]) && (n < |s| ==> !IsDigit(s[n]))
  {
    if s == "" || !IsDigit(s[0]) then 0 else 1 + DigitRun(s[1..])
  }

  /** DECIMAL_RE: digits, optionally a dot, and at least one digit at the end. */
  predicate IsDecimal(s: string) {
    var n := DigitRun(s);
    if n == |s| then s != "" else Fraction(s[n..])
  }

  function Mantissa(s: string): nat
    requires IsDecimal(s)
  {
    var n := DigitRun(s);
    if n == |s| then Value(s) else assert Digits(s[n..][1..]); assert s[n..][1..] == s[n + 1..]; Value(s[..n] + s[n + 1..])
  }

  function Scale(s: string): nat
    requires IsDecimal(s)
  {
    var n := DigitRun(s);
    if n == |s| then 0 else |s| - n - 1
  }

  function Pow10(n: nat): (p: nat)
    ensures p > 0
  {
    if n == 0 then 1 else 10 * Pow10(n - 1)
  }

  /** Nearest integer to n / d, ties to even: rust_decimal's `round`. */
  function RoundHalfEven(n: nat, d: nat): nat
    requires d > 0
  {
    var q, r := n / d, n % d;
    if 2 * r < d then q else if 2 * r > d then q + 1 else if q % 2 == 0 then q else q + 1
  }

  const DECIMAL_LIMIT: int := 0x1_0000_0000_0000_0000_0000_0000

  /** The decimal library is exact while the digits fit 96 bits and 28 places. */
  predicate Exact(s: string, exponent: nat)
    requires IsDecimal(s)
  {
    Mantissa(s) * Pow10(2 + exponent) < DECIMAL_LIMIT && Scale(s) <= 28
  }

  /** The rounded product, when it fits an i64. Outside the exact range it is whatever the decimal
      library gives, the parameter `wide`. */
  function ToCentavos(s: string, exponent: nat, wide: (string, nat) -> Option<Centavos>): Option<Centavos>
    requires IsDecimal(s)
  {
    if !Exact(s, exponent) then wide(s, exponent)
    else
      var c := RoundHalfEven(Mantissa(s) * Pow10(2 + exponent), Pow10(Scale(s)));
      if c <= I64_MAX then Some(c) else None
  }

  function Check(c: Centavos): (r: Parsed)
    ensures r.Amount? ==> 1 <= r.centavos <= MAX_ENTRY_CENTAVOS && r.centavos == c
  {
    if c <= 0 then Rejected(NonPositive)
    else if c > MAX_ENTRY_CENTAVOS then Rejected(ExceedsCap)
    else Amount(c)
  }

  function ParseUngrouped(raw: string, s: string, exponent: nat, wide: (string, nat) -> Option<Centavos>): Parsed {
    if !IsDecimal(s) then Rejected(Unparseable(raw))
    else
      match ToCentavos(s, exponent, wide)
      case None => Rejected(NotFinite)
      case Some(c) => Check(c)
  }

  function ParseGrouped(raw: string, s: string, exponent: nat, wide: (string, nat) -> Option<Centavos>): Parsed {
    if ',' !in s then ParseUngrouped(raw, s, exponent, wide)
    else if !IsGrouped(s) then Rejected(Grouping)
    else ParseUngrouped(raw, Replace(s, ",", ""), exponent, wide)
  }

  function Parse(raw: string, wide: (string, nat) -> Option<Centavos>): Parsed {
    var s := Clean(raw);
    if Trim(raw) == "" then Rejected(Empty)
    else if LooksLikeRange(s) then Rejected(Range)
    else ParseGrouped(raw, FixDots(DropSuffix(s)), SuffixExponent(s), wide)
  }

  /** Whatever is accepted, and whatever the decimal library does, is a legal entry amount. */
  lemma ParsedIsLegal(raw: string, wide: (string, nat) -> Option<Centavos>)
    ensures var r := Parse(raw, wide); r.Amount? ==> 1 <= r.centavos <= MAX_ENTRY_CENTAVOS
  {
    hide Clean, LooksLikeRange, IsGrouped, IsDecimal, ToCentavos, Replace, FixDots, DropSuffix, Trim;
  }

  /** parse_amount as written: one string edited step by step. */
  method ParseAmount(raw: string, wide: (string, nat) -> Option<Centavos>) returns (r: Parsed)
    ensures r == Parse(raw, wide)
  {
    hide Replace, DropSpaces, Trim, LooksLikeRange, ParseGrouped;
    var s := Lower(Trim(raw));
    if s == "" {
      return Rejected(Empty);
    }
    s := Replace(Replace(Replace(Replace(s, "₱", ""), "php", ""), "pesos", ""), "peso", "");
    s := Trim(DropSpaces(s));
    ghost var cleaned := s;
    if LooksLikeRange(s) {
      return Rejected(Range);
    }
    var exponent := 0;
    if s != "" && s[|s| - 1] == 'k' {
      s, exponent := s[..|s| - 1], 3;
    } else if s != "" && s[|s| - 1] == 'm' {
      s, exponent := s[..|s| - 1], 6;
    }
    assert s == DropSuffix(cleaned) && exponent == SuffixExponent(cleaned);
    if s != "" && s[|s| - 1] == '.' {
      s := s[..|s| - 1];
    }
    if s != "" && s[0] == '.' {
      s := "0" + s;
    }
    assert s == FixDots(DropSuffix(cleaned));
    r := ParseNumber(raw, s, exponent, wide);
  }

  /** The second half: commas, the decimal, the bounds. */
  method ParseNumber(raw: string, text: string, exponent: nat, wide: (string, nat) -> Option<Centavos>)
    returns (r: Parsed)
    ensures r == ParseGrouped(raw, text, exponent, wide)
  {
    hide Replace, IsGrouped, ToCentavos;
    var s := text;
    if ',' in s {
      if !IsGrouped(s) {
        return Rejected(Grouping);
      }
      s := Replace(s, ",", "");
    }
    if s == "" || !IsDecimal(s) {
      return Rejected(Unparseable(raw));
    }
    var centavos := ToCentavos(s, exponent, wide);
    if centavos.None? {
      return Rejected(NotFinite);
    }
    if centavos.value <= 0 {
      return Rejected(NonPositive);
    }
    if centavos.value > MAX_ENTRY_CENTAVOS {
      return Rejected(ExceedsCap);
    }
    r := Amount(centavos.value);
  }

  // ---------------------------------------------------------------- the round trip

  lemma MultipleAtLeast(k: int, d: nat)
    requires k >= 1
    ensures k * d >= d
  {
    assert k * d == d + (k - 1) * d;
  }

  /** No integer is closer than the rounded one, and a tie goes to an even result. */
  lemma RoundingIsNearest(n: nat, d: nat, other: nat)
    requires d > 0
    ensures var r := RoundHalfEven(n, d);
            && Abs(r * d - n) <= Abs(other * d - n)
            && (other != r && Abs(other * d - n) == Abs(r * d - n) ==> r % 2 == 0)
  {
    var q, m := n / d, n % d;
    Distance(q, m, d, other - q);
    Distance(q, m, d, 0);
    Distance(q, m, d, 1);
    assert n == q * d + m;
  }

  /** How far the k-th multiple after q * d is from q * d + m. */
  lemma Distance(q: nat, m: nat, d: nat, k: int)
    requires m < d
    ensures var e := (q + k) * d - (q * d + m);
            && (k <= 0 ==> Abs(e) >= m && (k < 0 ==> Abs(e) > m && Abs(e) > d - m - 1))
            && (k == 0 ==> Abs(e) == m) && (k == 1 ==> Abs(e) == d - m)
            && (k >= 1 ==> Abs(e) >= d - m) && (k >= 2 ==> Abs(e) > d - m)
  {
    assert (q + k) * d - q * d == k * d;
    if k >= 1 {
      MultipleAtLeast(k, d);
      if k >= 2 {
        MultipleAtLeast(k - 1, d);
        assert k * d == d + (k - 1) * d;
      }
    } else if k < 0 {
      MultipleAtLeast(-k, d);
      assert (-k) * d == -(k * d);
    }
  }

  lemma {:induction false} ReplaceAbsent(s: string, pat: string, rep: string)
    requires |pat| > 0 && pat[0] !in s
    ensures Replace(s, pat, rep) == s
  {
    if s != "" && |s| >= |pat| {
      assert s[0] in s;
      ReplaceAbsent(s[1..], pat, rep);
    }
  }

  lemma {:induction false} DropSpacesKeeps(s: string)
    requires forall i :: 0 <= i < |s| ==> !IsSpace(s[i])
    ensures DropSpaces(s) == s
  {
    if s != "" {
      DropSpacesKeeps(s[1..]);
    }
  }

  predicate PriceChar(c: char) {
    IsDigit(c) || c == ',' || c == '.'
  }

  lemma {:induction false} GroupChars(raw: string)
    requires Digits(raw) && raw != ""
    ensures var g := Group(raw); g != "" && g[0] == raw[0] && forall i :: 0 <= i < |g| ==> IsDigit(g[i]) || g[i] == ','
    ensures |raw| <= 3 ==> Group(raw) == raw
    ensures |raw| > 3 ==> ',' in Group(raw)
  {
    if |raw| > 1 {
      GroupChars(raw[1..]);
      var head := [raw[0]] + if (|raw| - 1) % 3 == 0 then "," else "";
      assert Group(raw) == head + Group(raw[1..]);
      if |raw| > 3 {
        if |raw| == 4 {
          assert head[1] == ',';
        }
      }
    }
  }

  lemma RemoveComma(c: char, comma: bool, rest: string)
    requires c != ','
    ensures Replace([c] + (if comma then "," else "") + rest, ",", "") == [c] + Replace(rest, ",", "")
  {
    hide Replace;
    if comma {
      var s := [c] + "," + rest;
      assert s[0] == c && s[1..] == "," + rest;
      ReplaceStep(s, ',', "");
      ReplaceStep("," + rest, ',', "");
      assert ("," + rest)[1..] == rest;
    } else {
      var s := [c] + "" + rest;
      assert s[0] == c && s[1..] == rest;
      ReplaceStep(s, ',', "");
    }
  }

  /** Removing the commas of a grouped number gives the number back. */
  lemma {:induction false} UngroupGroup(raw: string, tail: string)
    requires Digits(raw) && ',' !in tail
    ensures Replace(Group(raw) + tail, ",", "") == raw + tail
  {
    hide Replace;
    if |raw| <= 1 {
      assert ',' !in raw + tail;
      ReplaceAbsent(raw + tail, ",", "");
    } else {
      var comma, g := (|raw| - 1) % 3 == 0, Group(raw[1..]);
      UngroupGroup(raw[1..], tail);
      assert Group(raw) == [raw[0]] + (if comma then "," else "") + g;
      hide Group;
      RemoveComma(raw[0], comma, g + tail);
      assert Group(raw) + tail == [raw[0]] + (if comma then "," else "") + (g + tail);
      assert raw + tail == [raw[0]] + (raw[1..] + tail);
    }
  }

  /** The leading group: one to three digits, then a comma and the rest grouped on its own. */
  lemma {:induction false} GroupPeel(raw: string, k: nat)
    requires 1 <= k <= 3 && k < |raw| && (|raw| - k) % 3 == 0
    ensures Group(raw) == raw[..k] + ("," + Group(raw[k..]))
  {
    if k > 1 {
      GroupPeel(raw[1..], k - 1);
      assert raw[1..][k - 1..] == raw[k..];
      assert raw[..k] == [raw[0]] + raw[1..][..k - 1];
    }
  }

  /** From a multiple of three digits on, a comma and the grouped digits form a GROUPED_RE tail. */
  lemma {:induction false} GroupedTail(raw: string, tail: string)
    requires Digits(raw) && |raw| > 0 && |raw| % 3 == 0 && Fraction(tail)
    ensures GroupTail("," + Group(raw) + tail)
  {
    var s := "," + Group(raw) + tail;
    if |raw| == 3 {
      GroupChars(raw);
      assert s[1..4] == raw && s[4..] == tail;
    } else {
      GroupPeel(raw, 3);
      GroupedTail(raw[3..], tail);
      assert s[1..4] == raw[..3] && s[4..] == "," + Group(raw[3..]) + tail;
    }
  }

  lemma GroupedAt(s: string, k: nat)
    requires 1 <= k <= 3 && k <= |s| && Digits(s[..k]) && GroupTail(s[k..])
    ensures IsGrouped(s)
  {
  }

  lemma GroupedMatches(raw: string, tail: string)
    requires Digits(raw) && |raw| > 3 && Fraction(tail)
    ensures IsGrouped(Group(raw) + tail)
  {
    hide Group, GroupTail, IsGrouped, Fraction;
    var k := if |raw| % 3 == 0 then 3 else |raw| % 3;
    var rest := Group(raw[k..]);
    GroupPeel(raw, k);
    GroupedTail(raw[k..], tail);
    var s := Group(raw) + tail;
    assert s == raw[..k] + ("," + rest + tail);
    assert s[..k] == raw[..k];
    assert s[k..] == "," + rest + tail;
    GroupedAt(s, k);
  }

  lemma {:induction false} DigitRunStops(ds: string, tail: string)
    requires Digits(ds) && tail != "" && !IsDigit(tail[0])
    ensures DigitRun(ds + tail) == |ds|
  {
    if ds != "" {
      assert (ds + tail)[1..] == ds[1..] + tail;
      DigitRunStops(ds[1..], tail);
    } else {
      assert ds + tail == tail;
    }
  }

  lemma ValueOfPrice(pesos: nat, cents: nat)
    requires cents < 100
    ensures Digits(ToDigits(pesos) + TwoDigits(cents))
    ensures Value(ToDigits(pesos) + TwoDigits(cents)) == 100 * pesos + cents
  {
    var s := ToDigits(pesos) + TwoDigits(cents);
    ValueOfDigits(pesos);
    assert s[..|s| - 1] == ToDigits(pesos) + [DigitOf(cents / 10)];
    assert s[..|s| - 1][..|s| - 2] == ToDigits(pesos);
  }

  /** A plain "pesos.cents" reads as exactly that many centavos. */
  lemma PlainPrice(raw: string, x: int, wide: (string, nat) -> Option<Centavos>)
    requires 1 <= x <= MAX_ENTRY_CENTAVOS
    ensures ParseUngrouped(raw, ToDigits(x / 100) + "." + TwoDigits(x % 100), 0, wide) == Amount(x)
  {
    var ds, cc := ToDigits(x / 100), TwoDigits(x % 100);
    var s := ds + "." + cc;
    DigitRunStops(ds, "." + cc);
    assert s == ds + ("." + cc);
    assert s[|ds|..] == "." + cc && ("." + cc)[1..] == cc;
    assert s[..|ds|] == ds && s[|ds| + 1..] == cc;
    ValueOfPrice(x / 100, x % 100);
    assert Mantissa(s) == x && Scale(s) == 2;
    assert Pow10(2) == 100 by {
      assert Pow10(1) == 10;
    }
    assert RoundHalfEven(x * 100, 100) == x;
  }

  lemma NothingToReplace(s: string)
    requires forall i :: 0 <= i < |s| ==> PriceChar(s[i])
    ensures Replace(s, "₱", "") == s && Replace(s, "php", "") == s
    ensures Replace(s, "pesos", "") == s && Replace(s, "peso", "") == s
  {
    ReplaceAbsent(s, "₱", "");
    ReplaceAbsent(s, "php", "");
    ReplaceAbsent(s, "pesos", "");
    ReplaceAbsent(s, "peso", "");
  }

  lemma CleanPrice(price: string)
    requires price != "" && IsDigit(price[0]) && IsDigit(price[|price| - 1])
    requires forall i :: 0 <= i < |price| ==> PriceChar(price[i])
    ensures Trim("₱" + price) != "" && Clean("₱" + price) == price
  {
    hide Replace, Trim, DropSpaces;
    var s := "₱" + price;
    TrimKeeps(s);
    PriceIsLower(price);
    NothingToReplace(price);
    DropPeso(price);
    DropSpacesKeeps(price);
    TrimKeeps(price);
  }

  lemma PriceIsLower(price: string)
    requires forall i :: 0 <= i < |price| ==> PriceChar(price[i])
    ensures Lower("₱" + price) == "₱" + price
  {
  }

  lemma PriceIsPlain(price: string)
    requires price != "" && IsDigit(price[0]) && IsDigit(price[|price| - 1])
    requires forall i :: 0 <= i < |price| ==> PriceChar(price[i])
    ensures !LooksLikeRange(price) && SuffixExponent(price) == 0 && FixDots(DropSuffix(price)) == price
  {
    forall i | 0 <= i < |price|
      ensures !IsDash(price[i]) && price[i] != 't'
    {
      assert PriceChar(price[i]);
    }
  }

  lemma PriceUngroups(raw: string, ds: string, cc: string, wide: (string, nat) -> Option<Centavos>)
    requires ds != "" && Digits(ds) && cc != "" && Digits(cc)
    ensures ParseGrouped(raw, Group(ds) + ("." + cc), 0, wide) == ParseUngrouped(raw, ds + ("." + cc), 0, wide)
  {
    var tail := "." + cc;
    assert tail[1..] == cc;
    GroupChars(ds);
    if |ds| > 3 {
      GroupedMatches(ds, tail);
      UngroupGroup(ds, tail);
    }
  }

  /** The round trip: every amount that can be entered prints to a text that parses back to it. */
  lemma ParseFormat(x: Centavos, wide: (string, nat) -> Option<Centavos>)
    requires 1 <= x <= MAX_ENTRY_CENTAVOS
    ensures Parse(FormatPhp(x), wide) == Amount(x)
  {
    hide Group, Clean, Trim, LooksLikeRange, ParseGrouped, ParseUngrouped, ToDigits;
    var ds, cc := ToDigits(x / 100), TwoDigits(x % 100);
    var price := Group(ds) + ("." + cc);
    GroupChars(ds);
    assert FormatPhp(x) == "₱" + price;
    CleanPrice(price);
    PriceIsPlain(price);
    PriceUngroups(FormatPhp(x), ds, cc, wide);
    PlainPrice(FormatPhp(x), x, wide);
    assert ds + ("." + cc) == ds + "." + cc;
  }

  /** A reader of printed amounts, signs and all. */
  function Read(s: string): int {
    var negative := s != "" && s[0] == '-';
    var digits := Replace(Replace(if negative then s[1..] else s, "₱", ""), ",", "");
    var n := DigitRun(digits);
    var plain := digits[..n] + if n < |digits| then digits[n + 1..] else "";
    var amount := if Digits(plain) then Value(plain) else 0;
    if negative then -amount else amount
  }

  lemma PriceChars(ds: string, cc: string)
    requires ds != "" && Digits(ds) && Digits(cc)
    ensures forall i :: 0 <= i < |Group(ds) + ("." + cc)| ==> PriceChar((Group(ds) + ("." + cc))[i])
  {
    GroupChars(ds);
  }

  lemma ReadUnsigned(ds: string, cc: string)
    requires ds != "" && Digits(ds) && Digits(cc)
    ensures var digits := Replace(Replace("₱" + (Group(ds) + ("." + cc)), "₱", ""), ",", "");
            digits == ds + ("." + cc) && DigitRun(digits) == |ds|
  {
    hide Replace, Group, DigitRun;
    var price := Group(ds) + ("." + cc);
    PriceChars(ds, cc);
    NothingToReplace(price);
    DropPeso(price);
    UngroupGroup(ds, "." + cc);
    DigitRunStops(ds, "." + cc);
  }

  lemma DropPeso(price: string)
    ensures Replace("₱" + price, "₱", "") == Replace(price, "₱", "")
  {
    hide Replace;
    ReplaceStep("₱" + price, '₱', "");
    assert ("₱" + price)[1..] == price;
  }

  lemma ReadSigned(negative: bool, ds: string, cc: string)
    requires ds != "" && Digits(ds) && Digits(cc) && Digits(ds + cc)
    ensures Read((if negative then "-" else "") + ("₱" + (Group(ds) + ("." + cc))))
            == (if negative then -1 else 1) * Value(ds + cc)
  {
    hide Replace, Group, DigitRun, Value;
    var unsigned := "₱" + (Group(ds) + ("." + cc));
    assert ("-" + unsigned)[1..] == unsigned && "" + unsigned == unsigned;
    ReadUnsigned(ds, cc);
    var digits := ds + ("." + cc);
    assert digits[..|ds|] + digits[|ds| + 1..] == ds + cc;
  }

  lemma ReadFormat(c: Centavos)
    ensures Read(FormatPhp(c)) == c
  {
    hide Group, Value, ToDigits, Read;
    var ds, cc := ToDigits(Abs(c) / 100), TwoDigits(Abs(c) % 100);
    ValueOfPrice(Abs(c) / 100, Abs(c) % 100);
    ReadSigned(c < 0, ds, cc);
    var sign := if c < 0 then "-" else "";
    assert sign + "₱" + Group(ds) + "." + cc == sign + ("₱" + (Group(ds) + ("." + cc)));
  }

  /** No two amounts, of any size and sign, print alike. */
  lemma FormatIsInjective(a: Centavos, b: Centavos)
    requires FormatPhp(a) == FormatPhp(b)
    ensures a == b
  {
    ReadFormat(a);
    ReadFormat(b);
  }
}
