/** Printing and reading money: formatMoneyPlain (apps/web/components/money-value.tsx) and
    parse_currency (packages/extractors/extractors/normalize.py), on ASCII digits and spaces. */
module Money {
  import opened Wrappers
  import Descriptions
  import Seqs

  predicate IsDigit(c: char) {
    '0' <= c <= '9'
  }

  predicate AllDigits(s: string) {
    forall i :: 0 <= i < |s| ==> IsDigit(s[i])
  }

  function Pow10(n: nat): (r: nat)
    ensures r > 0
  {
    if n == 0 then 1 else 10 * Pow10(n - 1)
  }

  /** The number a string of digits spells. */
  function Number(d: string): nat
    requires AllDigits(d)
  {
    if d == "" then 0 else 10 * Number(d[..|d| - 1]) + (d[|d| - 1] - '0') as nat
  }

  // ---- printing ---------------------------------------------------------------

  /** The integer part with a comma wherever a multiple of three digits follows, from digit i. */
  function Group(d: string, i: nat): string
    requires i <= |d|
    decreases |d| - i
  {
    if i == |d| then ""
    else (if i > 0 && (|d| - i) % 3 == 0 then "," else "") + [d[i]] + Group(d, i + 1)
  }

  function Unsigned(amount: string): string {
    if amount != "" && amount[0] == '-' then amount[1..] else amount
  }

  predicate Negative(amount: string) {
    amount != "" && amount[0] == '-'
  }

  function DotAt(u: string): (k: nat)
    ensures k <= |u| && (k < |u| ==> u[k] == '.') && forall i :: 0 <= i < k ==> u[i] != '.'
  {
    if u == "" || u[0] == '.' then 0 else 1 + DotAt(u[1..])
  }

  /** An optional minus, at least one digit, and optionally a point and digits. */
  predicate WellFormed(amount: string) {
    var u := Unsigned(amount);
    var k := DotAt(u);
    k > 0 && AllDigits(u[..k]) && (k < |u| ==> AllDigits(u[k + 1..]))
  }

  function IntegerPart(amount: string): string {
    Unsigned(amount)[..DotAt(Unsigned(amount))]
  }

  /** The fraction digits, "00" when there is no point. */
  function FractionPart(amount: string): string {
    var u := Unsigned(amount);
    if DotAt(u) == |u| then "00" else u[DotAt(u) + 1..]
  }

  /** padEnd(2, "0").slice(0, 2) */
  function PadCut(f: string): (r: string)
    ensures |r| == 2 && (AllDigits(f) ==> AllDigits(r))
  {
    if f == "" then "00" else if |f| == 1 then f + "0" else f[..2]
  }

  function Symbol(currency: string): string {
    if currency == "USD" then "$" else if currency == "EUR" then "\U{20AC}"
    else if currency == "GBP" then "\U{A3}" else if currency == "INR" then "\U{20B9}"
    else currency + " "
  }

  predicate InTable(currency: string) {
    currency in {"USD", "EUR", "GBP", "INR"}
  }

  function SignOf(amount: string): string {
    if Negative(amount) then "-" else ""
  }

  function FormatMoneyPlain(amount: string, currency: string): string
    requires WellFormed(amount)
  {
    SignOf(amount) + Symbol(currency) + Group(IntegerPart(amount), 0) + "." + PadCut(FractionPart(amount))
  }

  // ---- reading ----------------------------------------------------------------

  /** units / 10^scale */
  datatype Parsed = Amount(units: int, scale: nat) | ExtractionError

  function StripLeft(s: string): (r: string)
    ensures r == "" || !Descriptions.IsSpace(r[0])
  {
    if s != "" && Descriptions.IsSpace(s[0]) then StripLeft(s[1..]) else s
  }

  function StripRight(s: string): string {
    if s != "" && Descriptions.IsSpace(s[|s| - 1]) then StripRight(s[..|s| - 1]) else s
  }

  function Strip(s: string): string {
    StripRight(StripLeft(s))
  }

  /** Digits and points; everything else, commas included, is dropped. */
  function Clean(s: string): string {
    if s == "" then "" else (if IsDigit(s[0]) || s[0] == '.' then [s[0]] else "") + Clean(s[1..])
  }

  function Unparenthesize(t: string): (string, bool) {
    if |t| >= 2 && t[0] == '(' && t[|t| - 1] == ')' then (Strip(t[1..|t| - 1]), true) else (t, false)
  }

  function DropTrailingMinus(t: string): (string, bool) {
    if t != "" && t[|t| - 1] == '-' then (Strip(t[..|t| - 1]), true) else (t, false)
  }

  function DropLeadingMinus(t: string): (string, bool) {
    if t != "" && t[0] == '-' then (Strip(t[1..]), true) else (t, false)
  }

  /** Decimal(cleaned) of digits and points, or InvalidOperation. */
  function ToDecimal(cleaned: string): Parsed {
    var k := DotAt(cleaned);
    var digits := if k < |cleaned| then cleaned[..k] + cleaned[k + 1..] else cleaned;
    if digits == "" || !AllDigits(digits) then ExtractionError
    else Amount(Number(digits), |digits| - k)
  }

  function Signed(p: Parsed, negative: bool): Parsed {
    if p.Amount? && negative then p.(units := -p.units) else p
  }

  function ParseCurrency(raw: Option<string>): Parsed {
    if raw.None? || Strip(raw.value) == "" then ExtractionError
    else
      var (t1, n1) := Unparenthesize(Strip(raw.value));
      var (t2, n2) := DropTrailingMinus(t1);
      var (t3, n3) := DropLeadingMinus(t2);
      Signed(ToDecimal(Clean(t3)), n1 || n2 || n3)
  }

  // ---- cleaning ---------------------------------------------------------------

  lemma {:induction false} CleanJoins(a: string, b: string)
    ensures Clean(a + b) == Clean(a) + Clean(b)
  {
    if a == "" {
      assert a + b == b;
    } else {
      CleanJoins(a[1..], b);
      var head := if IsDigit(a[0]) || a[0] == '.' then [a[0]] else "";
      assert (a + b)[0] == a[0] && (a + b)[1..] == a[1..] + b;
      Seqs.Associate(head, Clean(a[1..]), Clean(b));
    }
  }

  lemma {:induction false} StripLeftCleans(s: string)
    ensures Clean(StripLeft(s)) == Clean(s)
  {
    if s != "" && Descriptions.IsSpace(s[0]) { StripLeftCleans(s[1..]); }
  }

  lemma {:induction false} StripRightCleans(s: string)
    ensures Clean(StripRight(s)) == Clean(s)
  {
    if s != "" && Descriptions.IsSpace(s[|s| - 1]) {
      StripRightCleans(s[..|s| - 1]);
      assert s == s[..|s| - 1] + [s[|s| - 1]];
      CleanJoins(s[..|s| - 1], [s[|s| - 1]]);
    }
  }

  lemma {:induction false} StripCleans(s: string)
    ensures Clean(Strip(s)) == Clean(s)
  {
    StripLeftCleans(s);
    StripRightCleans(StripLeft(s));
  }

  lemma {:induction false} SignsClean(t: string)
    ensures Clean(Unparenthesize(t).0) == Clean(t)
    ensures Clean(DropTrailingMinus(t).0) == Clean(t)
    ensures Clean(DropLeadingMinus(t).0) == Clean(t)
  {
    if Unparenthesize(t).1 {
      assert t == [t[0]] + t[1..|t| - 1] + [t[|t| - 1]];
      CleanJoins([t[0]] + t[1..|t| - 1], [t[|t| - 1]]);
      CleanJoins([t[0]], t[1..|t| - 1]);
      StripCleans(t[1..|t| - 1]);
    }
    if DropTrailingMinus(t).1 {
      assert t == t[..|t| - 1] + [t[|t| - 1]];
      CleanJoins(t[..|t| - 1], [t[|t| - 1]]);
      StripCleans(t[..|t| - 1]);
    }
    if DropLeadingMinus(t).1 {
      assert t == [t[0]] + t[1..];
      CleanJoins([t[0]], t[1..]);
      StripCleans(t[1..]);
    }
  }

  predicate ReadNegative(raw: string) {
    var (t1, n1) := Unparenthesize(Strip(raw));
    var (t2, n2) := DropTrailingMinus(t1);
    n1 || n2 || DropLeadingMinus(t2).1
  }

  /** The digits read are those of the raw text, whatever signs and symbols stand around them. */
  lemma {:induction false} ParseReadsAllDigits(raw: string)
    ensures ParseCurrency(Some(raw)) == Signed(ToDecimal(Clean(raw)), ReadNegative(raw))
  {
    var t := Strip(raw);
    StripCleans(raw);
    SignsClean(t);
    SignsClean(Unparenthesize(t).0);
    SignsClean(DropTrailingMinus(Unparenthesize(t).0).0);
    if t == "" { assert Clean(raw) == ""; }
  }

  // ---- grouping ---------------------------------------------------------------

  /** Removing the commas gives back the digits. */
  lemma {:induction false} GroupingKeepsDigits(d: string, i: nat)
    requires AllDigits(d) && i <= |d|
    ensures Clean(Group(d, i)) == d[i..]
    decreases |d| - i
  {
    if i < |d| {
      GroupingKeepsDigits(d, i + 1);
      var comma := if i > 0 && (|d| - i) % 3 == 0 then "," else "";
      CleanJoins(comma + [d[i]], Group(d, i + 1));
      CleanJoins(comma, [d[i]]);
      assert d[i..] == [d[i]] + d[i + 1..];
    }
  }

  /** Groups of a comma and three digits. */
  predicate Threes(s: string) {
    s == "" || (|s| >= 4 && s[0] == ',' && IsDigit(s[1]) && IsDigit(s[2]) && IsDigit(s[3]) && Threes(s[4..]))
  }

  /** One to three digits, then such groups. */
  ghost predicate InThrees(s: string) {
    exists k :: 1 <= k <= 3 && k <= |s| && AllDigits(s[..k]) && Threes(s[k..])
  }

  lemma {:induction false} GroupsAreThrees(d: string, i: nat)
    requires AllDigits(d) && 0 < i <= |d| && (|d| - i) % 3 == 0
    ensures Threes(Group(d, i))
    decreases |d| - i
  {
    if i < |d| {
      GroupsAreThrees(d, i + 3);
      assert Group(d, i + 2) == [d[i + 2]] + Group(d, i + 3);
      assert Group(d, i + 1) == [d[i + 1], d[i + 2]] + Group(d, i + 3);
      var g := Group(d, i);
      assert g == [',', d[i], d[i + 1], d[i + 2]] + Group(d, i + 3);
      assert g[4..] == Group(d, i + 3);
    }
  }

  /** The printed integer part is grouped in threes. */
  lemma {:induction false} GroupedInThrees(d: string)
    requires AllDigits(d) && d != ""
    ensures InThrees(Group(d, 0))
  {
    var k := if |d| % 3 == 0 then 3 else |d| % 3;
    var g := Group(d, 0);
    GroupsAreThrees(d, k);
    if k == 1 {
      assert g == [d[0]] + Group(d, 1);
    } else if k == 2 {
      assert Group(d, 1) == [d[1]] + Group(d, 2);
      assert g == [d[0], d[1]] + Group(d, 2);
    } else {
      assert Group(d, 2) == [d[2]] + Group(d, 3);
      assert Group(d, 1) == [d[1], d[2]] + Group(d, 3);
      assert g == [d[0], d[1], d[2]] + Group(d, 3);
    }
    assert AllDigits(g[..k]) && g[k..] == Group(d, k);
  }

  // ---- numbers ----------------------------------------------------------------

  lemma {:induction false} NumberJoins(a: string, b: string)
    requires AllDigits(a) && AllDigits(b)
    ensures Number(a + b) == Number(a) * Pow10(|b|) + Number(b)
  {
    if b == "" {
      assert a + b == a;
    } else {
      var n := |b| - 1;
      assert (a + b)[..|a + b| - 1] == a + b[..n];
      NumberJoins(a, b[..n]);
      MoveTen(Number(a), Pow10(n));
      assert Number(a + b) == 10 * Number((a + b)[..|a + b| - 1]) + (b[n] - '0') as nat;
      assert Number(b) == 10 * Number(b[..n]) + (b[n] - '0') as nat;
    }
  }

  lemma {:induction false} MoveTen(x: nat, p: nat)
    ensures 10 * (x * p) == x * (10 * p)
  {
  }

  lemma {:induction false} NumberIsBounded(d: string)
    requires AllDigits(d)
    ensures Number(d) < Pow10(|d|)
  {
    if d != "" { NumberIsBounded(d[..|d| - 1]); }
  }

  predicate AllZeros(d: string) {
    forall i :: 0 <= i < |d| ==> d[i] == '0'
  }

  lemma {:induction false} ZeroNumber(d: string)
    requires AllDigits(d)
    ensures Number(d) == 0 <==> AllZeros(d)
  {
    if d != "" {
      ZeroNumber(d[..|d| - 1]);
      assert d == d[..|d| - 1] + [d[|d| - 1]];
    }
  }

  // ---- the round trip ---------------------------------------------------------

  /** The amount cut to two decimals, in cents. */
  function Cents(amount: string): int
    requires WellFormed(amount)
  {
    PartsAreDigits(amount);
    var n: int := Number(IntegerPart(amount) + PadCut(FractionPart(amount)));
    if Negative(amount) then -n else n
  }

  lemma {:induction false} PartsAreDigits(amount: string)
    requires WellFormed(amount)
    ensures AllDigits(IntegerPart(amount)) && AllDigits(FractionPart(amount)) && IntegerPart(amount) != ""
    ensures AllDigits(IntegerPart(amount) + PadCut(FractionPart(amount)))
  {
  }

  /** The digits and points a currency code brings along. */
  function Carried(currency: string): string {
    if InTable(currency) then "" else Clean(currency)
  }

  lemma {:induction false} SymbolCleans(currency: string)
    ensures Clean(Symbol(currency)) == Carried(currency)
  {
    if !InTable(currency) { CleanJoins(currency, " "); }
  }

  lemma {:induction false} CleanFive(a: string, b: string, c: string, d: string, e: string)
    ensures Clean(a + b + c + d + e) == Clean(a) + Clean(b) + Clean(c) + Clean(d) + Clean(e)
  {
    CleanJoins(a + b + c + d, e);
    CleanJoins(a + b + c, d);
    CleanJoins(a + b, c);
    CleanJoins(a, b);
  }

  lemma {:induction false} FormattedCleans(amount: string, currency: string)
    requires WellFormed(amount)
    ensures Clean(FormatMoneyPlain(amount, currency))
         == Carried(currency) + (IntegerPart(amount) + "." + PadCut(FractionPart(amount)))
  {
    PartsAreDigits(amount);
    var i, f := IntegerPart(amount), PadCut(FractionPart(amount));
    CleanFive(SignOf(amount), Symbol(currency), Group(i, 0), ".", f);
    SymbolCleans(currency);
    GroupingKeepsDigits(i, 0);
    DigitsStayClean(f);
    assert i[0..] == i && Clean(SignOf(amount)) == "" && Clean(".") == ".";
    Nest("", Carried(currency), i, ".", f);
    assert "" + (Carried(currency) + (i + "." + f)) == Carried(currency) + (i + "." + f);
  }

  lemma {:induction false} DigitsStayClean(d: string)
    requires AllDigits(d)
    ensures Clean(d) == d
  {
    if d != "" { DigitsStayClean(d[1..]); }
  }

  /** A currency code whose first character, spaces aside, is a minus sign. */
  predicate Dashed(currency: string) {
    StripLeft(currency) != "" && StripLeft(currency)[0] == '-'
  }

  // ---- signs ------------------------------------------------------------------

  lemma {:induction false} StripLeftJoins(a: string, b: string)
    ensures StripLeft(a + b) == if StripLeft(a) != "" then StripLeft(a) + b else StripLeft(b)
  {
    if a == "" {
      assert a + b == b;
    } else if Descriptions.IsSpace(a[0]) {
      assert (a + b)[1..] == a[1..] + b;
      StripLeftJoins(a[1..], b);
    }
  }

  lemma {:induction false} SymbolStrips(currency: string, rest: string)
    requires rest != "" && IsDigit(rest[0])
    ensures var t := StripLeft(Symbol(currency) + rest); t != "" && (t[0] == '-' <==> Dashed(currency))
  {
    StripLeftJoins(Symbol(currency), rest);
    if InTable(currency) {
      assert StripLeft(Symbol(currency)) == Symbol(currency);
      assert StripLeft(currency) == currency;
    } else {
      StripLeftJoins(currency, " ");
      assert StripLeft(" ") == "";
      assert StripLeft(rest) == rest;
    }
  }

  lemma {:induction false} StripLeftKeepsEnd(s: string)
    requires s != "" && !Descriptions.IsSpace(s[|s| - 1])
    ensures StripLeft(s) != "" && StripLeft(s)[|StripLeft(s)| - 1] == s[|s| - 1]
  {
    if Descriptions.IsSpace(s[0]) { StripLeftKeepsEnd(s[1..]); }
  }

  /** In a text that ends in a digit only a leading minus is read as a sign. */
  lemma {:induction false} SignIsInFront(raw: string)
    requires raw != "" && IsDigit(raw[|raw| - 1])
    ensures StripLeft(raw) != "" && (ReadNegative(raw) <==> StripLeft(raw)[0] == '-')
  {
    StripLeftKeepsEnd(raw);
    var t := StripLeft(raw);
    assert StripRight(t) == t;
    assert Unparenthesize(t) == (t, false) && DropTrailingMinus(t) == (t, false);
  }

  /** A sign, a symbol and something that starts and ends with a digit. */
  lemma {:induction false} SignOfParts(sign: string, currency: string, rest: string)
    requires sign == "-" || sign == ""
    requires rest != "" && IsDigit(rest[0]) && IsDigit(rest[|rest| - 1])
    ensures ReadNegative(sign + (Symbol(currency) + rest)) <==> sign == "-" || Dashed(currency)
  {
    var raw := sign + (Symbol(currency) + rest);
    assert raw[|raw| - 1] == rest[|rest| - 1];
    SignIsInFront(raw);
    if sign == "-" {
      assert raw[0] == '-' && StripLeft(raw) == raw;
    } else {
      assert raw == Symbol(currency) + rest;
      SymbolStrips(currency, rest);
    }
  }

  lemma {:induction false} FormattedSign(amount: string, currency: string)
    requires WellFormed(amount)
    ensures ReadNegative(FormatMoneyPlain(amount, currency)) <==> Negative(amount) || Dashed(currency)
  {
    PartsAreDigits(amount);
    var g, f := Group(IntegerPart(amount), 0), PadCut(FractionPart(amount));
    assert g[0] == IntegerPart(amount)[0];
    SignOfParts(SignOf(amount), currency, g + "." + f);
    Nest(SignOf(amount), Symbol(currency), g, ".", f);
  }

  lemma {:induction false} Nest(a: string, b: string, c: string, d: string, e: string)
    ensures a + b + c + d + e == a + (b + (c + d + e))
  {
  }

  // ---- the round trip ---------------------------------------------------------

  predicate NoPoint(s: string) {
    forall i :: 0 <= i < |s| ==> s[i] != '.'
  }

  predicate DigitsAndPoints(s: string) {
    forall i :: 0 <= i < |s| ==> IsDigit(s[i]) || s[i] == '.'
  }

  lemma {:induction false} DotAfter(a: string, b: string)
    requires NoPoint(a) && b != "" && b[0] == '.'
    ensures DotAt(a + b) == |a|
  {
    assert (a + b)[|a|] == '.';
    assert forall i :: 0 <= i < |a| ==> (a + b)[i] == a[i];
  }

  lemma {:induction false} Regroup(k: string, i: string, f: string)
    ensures k + (i + "." + f) == (k + i) + ("." + f) && (k + i) + f == k + (i + f)
  {
  }

  lemma {:induction false} CutAtPoint(head: string, f: string)
    ensures (head + ("." + f))[..|head|] == head && (head + ("." + f))[|head| + 1..] == f
  {
  }

  lemma {:induction false} DecimalOfOnePoint(k: string, i: string, f: string)
    requires AllDigits(k) && AllDigits(i) && AllDigits(f) && |f| == 2
    ensures AllDigits(k + (i + f)) && ToDecimal(k + (i + "." + f)) == Amount(Number(k + (i + f)), 2)
  {
    var head := k + i;
    Regroup(k, i, f);
    DotAfter(head, "." + f);
    CutAtPoint(head, f);
  }

  lemma {:induction false} NoDecimalOfTwoPoints(k: string, i: string, f: string)
    requires !NoPoint(k)
    ensures ToDecimal(k + (i + "." + f)) == ExtractionError
  {
    var s := k + (i + "." + f);
    var j :| 0 <= j < |k| && k[j] == '.';
    assert s[j] == '.';
    var p, last := DotAt(s), |k| + |i|;
    assert p <= j && s[last] == '.';
    var digits := s[..p] + s[p + 1..];
    assert digits[last - 1] == s[last];
  }

  lemma {:induction false} CleanIsDigitsAndPoints(s: string)
    ensures DigitsAndPoints(Clean(s))
  {
    if s != "" { CleanIsDigitsAndPoints(s[1..]); }
  }

  /** A currency code with no point and no digit but zero. */
  predicate Harmless(currency: string) {
    forall i :: 0 <= i < |currency| ==> currency[i] != '.' && !('1' <= currency[i] <= '9')
  }

  lemma {:induction false} ZerosJoin(a: string, b: string)
    ensures AllZeros(a + b) <==> AllZeros(a) && AllZeros(b)
  {
    if AllZeros(a + b) {
      assert forall i :: 0 <= i < |a| ==> a[i] == (a + b)[i];
      assert forall i :: 0 <= i < |b| ==> b[i] == (a + b)[|a| + i];
    }
  }

  lemma {:induction false} HarmlessCleansToZeros(s: string)
    ensures Harmless(s) <==> AllZeros(Clean(s))
  {
    if s != "" {
      HarmlessCleansToZeros(s[1..]);
      assert Harmless(s) <==> Harmless([s[0]]) && Harmless(s[1..]) by {
        assert s == [s[0]] + s[1..];
        assert forall i :: 0 < i < |s| ==> s[i] == s[1..][i - 1];
      }
      ZerosJoin(if IsDigit(s[0]) || s[0] == '.' then [s[0]] else "", Clean(s[1..]));
    }
  }

  lemma {:induction false} CarriedZeros(currency: string)
    ensures DigitsAndPoints(Carried(currency)) && (Harmless(currency) <==> AllZeros(Carried(currency)))
  {
    CleanIsDigitsAndPoints(currency);
    HarmlessCleansToZeros(currency);
  }

  lemma {:induction false} MoreInFront(k: string, d: string)
    requires AllDigits(k) && AllDigits(d)
    ensures Number(k + d) == Number(d) <==> AllZeros(k)
    ensures Number(k + d) >= Number(d)
  {
    NumberJoins(k, d);
    ZeroNumber(k);
    if Number(k) > 0 { Grows(Number(k), Pow10(|d|)); }
  }

  lemma {:induction false} Grows(x: nat, p: nat)
    requires x > 0 && p > 0
    ensures x * p > 0
  {
  }

  lemma {:induction false} PrintedReads(amount: string, currency: string)
    requires WellFormed(amount)
    ensures var k, d := Carried(currency), IntegerPart(amount) + PadCut(FractionPart(amount));
            var p := ParseCurrency(Some(FormatMoneyPlain(amount, currency)));
            if !NoPoint(k) then p == ExtractionError
            else AllDigits(k + d) && p == Signed(Amount(Number(k + d), 2), Negative(amount) || Dashed(currency))
  {
    PartsAreDigits(amount);
    var raw := FormatMoneyPlain(amount, currency);
    var k, i, f := Carried(currency), IntegerPart(amount), PadCut(FractionPart(amount));
    ParseReadsAllDigits(raw);
    FormattedCleans(amount, currency);
    FormattedSign(amount, currency);
    CarriedZeros(currency);
    if NoPoint(k) { DecimalOfOnePoint(k, i, f); } else { NoDecimalOfTwoPoints(k, i, f); }
  }

  /** Reading what was printed gives the amount cut to two decimals exactly when the currency
      code brings no point and no digit other than zero, and no minus sign that a non-negative
      amount would take for its own. */
  lemma {:induction false} RoundTripsExactly(amount: string, currency: string)
    requires WellFormed(amount)
    ensures ParseCurrency(Some(FormatMoneyPlain(amount, currency))) == Amount(Cents(amount), 2)
       <==> Harmless(currency) && (Negative(amount) || Cents(amount) == 0 || !Dashed(currency))
  {
    PartsAreDigits(amount);
    var k, d := Carried(currency), IntegerPart(amount) + PadCut(FractionPart(amount));
    PrintedReads(amount, currency);
    CarriedZeros(currency);
    if NoPoint(k) { MoreInFront(k, d); }
  }

  lemma {:induction false} LongFraction(i: string, f: string)
    requires AllDigits(i) && AllDigits(f) && |f| >= 2
    ensures var c, n, p := Number(i + f[..2]), Number(i + f), Pow10(|f| - 2);
            Pow10(|f|) == 100 * p && n == c * p + Number(f[2..]) && Number(f[2..]) < p && (|f| == 2 ==> n == c * p)
  {
    assert i + f == (i + f[..2]) + f[2..];
    NumberJoins(i + f[..2], f[2..]);
    NumberIsBounded(f[2..]);
    assert |f| == 2 ==> f[2..] == "";
  }

  lemma {:induction false} SmallPowers()
    ensures Pow10(0) == 1 && Pow10(1) == 10 && Pow10(2) == 100
  {
  }

  lemma {:induction false} ShortFraction(i: string, f: string)
    requires AllDigits(i) && AllDigits(f) && |f| <= 1
    ensures Number(i + PadCut(f)) * Pow10(|f|) == 100 * Number(i + f)
  {
    SmallPowers();
    if f == "" {
      NumberJoins(i, "00");
      ZeroNumber("00");
      assert i + f == i;
    } else {
      NumberJoins(i + f, "0");
      ZeroNumber("0");
      assert i + PadCut(f) == (i + f) + "0";
    }
  }

  lemma {:induction false} FloorOf(c: nat, n: nat, p: nat, rest: nat)
    requires n == c * p + rest && rest < p
    ensures c * (100 * p) <= 100 * n < (c + 1) * (100 * p)
    ensures n == c * p ==> c * (100 * p) == 100 * n
  {
    assert c * (100 * p) == 100 * (c * p);
    assert (c + 1) * (100 * p) == 100 * (c * p) + 100 * p;
  }

  /** The cut drops less than a cent, and nothing when there are at most two decimals. */
  lemma {:induction false} CutIsFloor(amount: string)
    requires WellFormed(amount)
    ensures AllDigits(IntegerPart(amount) + FractionPart(amount))
    ensures var n, scale := Number(IntegerPart(amount) + FractionPart(amount)), Pow10(|FractionPart(amount)|);
            var cents := if Cents(amount) < 0 then -Cents(amount) else Cents(amount);
            && cents * scale <= 100 * n < (cents + 1) * scale
            && (|FractionPart(amount)| <= 2 ==> cents * scale == 100 * n)
  {
    PartsAreDigits(amount);
    var i, f := IntegerPart(amount), FractionPart(amount);
    var cents := Number(i + PadCut(f));
    if |f| <= 1 {
      ShortFraction(i, f);
      assert (cents + 1) * Pow10(|f|) == cents * Pow10(|f|) + Pow10(|f|);
    } else {
      LongFraction(i, f);
      FloorOf(cents, Number(i + f), Pow10(|f| - 2), Number(f[2..]));
    }
  }
}
