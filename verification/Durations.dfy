/** Duration strings (internal/config/config.go): day notation is concrete, Go's own duration
    grammar is the parameter `goParse`. */
module Durations {
  import opened Client

  /** time.ParseDuration: nanoseconds in int64, or a parse error. */
  type GoParser = string -> Option<int>

  const TWO_63: int := 0x8000_0000_0000_0000
  const TWO_64: int := 0x1_0000_0000_0000_0000
  const HOUR: int := 3600 * SECOND
  const DAY: int := 24 * HOUR

  predicate IsInt64(n: int) {
    -TWO_63 <= n < TWO_63
  }

  /** Two's-complement wrap-around of 64-bit arithmetic. */
  function Wrap64(n: int): (w: int)
    ensures IsInt64(w)
    ensures IsInt64(n) ==> w == n
  {
    (n + TWO_63) % TWO_64 - TWO_63
  }

  // ----- strconv.Atoi -----

  predicate IsDigit(c: char) {
    '0' <= c <= '9'
  }

  function DigitsValue(ds: string): nat
    requires forall i :: 0 <= i < |ds| ==> IsDigit(ds[i])
  {
    if ds == [] then 0
    else
      assert IsDigit(ds[|ds| - 1]);
      10 * DigitsValue(ds[..|ds| - 1]) + (ds[|ds| - 1] as int - '0' as int)
  }

  predicate AllDigits(ds: string) {
    |ds| > 0 && forall i :: 0 <= i < |ds| ==> IsDigit(ds[i])
  }

  /** An optional sign, at least one digit, and a value that fits 64 bits. */
  function Atoi(s: string): (r: Option<int>)
    ensures r.Some? ==> IsInt64(r.value)
  {
    var signed := |s| > 0 && (s[0] == '-' || s[0] == '+');
    var ds := if signed then s[1..] else s;
    if !AllDigits(ds) then None
    else
      var n: int := if signed && s[0] == '-' then 0 - DigitsValue(ds) else DigitsValue(ds);
      if IsInt64(n) then Some(n) else None
  }

  lemma AtoiHasNoNull(s: string)
    requires Atoi(s).Some?
    ensures '\0' !in s
  {
    var signed := s[0] == '-' || s[0] == '+';
    var ds := if signed then s[1..] else s;
    forall i | 0 <= i < |s|
      ensures s[i] != '\0'
    {
      if signed && i > 0 {
        assert s[i] == ds[i - 1];
      }
    }
  }

  // ----- ParseDuration -----

  /** `time.Duration(days) * 24 * time.Hour` in int64. */
  function DaysInNanos(days: int): int {
    Wrap64(Wrap64(days * 24) * HOUR)
  }

  predicate IsDayForm(s: string) {
    |s| > 0 && s[|s| - 1] == 'd' && Atoi(s[..|s| - 1]).Some?
  }

  function ParseDuration(goParse: GoParser, s: string): Option<int> {
    if s == "" then Some(0)
    else if IsDayForm(s) then Some(DaysInNanos(Atoi(s[..|s| - 1]).value))
    else goParse(s)
  }

  /** Day notation is exact for exactly the day counts that fit: 106751 either way. */
  lemma DaysAreExact(days: int)
    ensures DaysInNanos(days) == days * DAY <==> -106751 <= days <= 106751
  {
  }

  lemma DigitsValueStep(ds: string, c: char)
    requires (forall i :: 0 <= i < |ds| ==> IsDigit(ds[i])) && IsDigit(c)
    ensures forall i :: 0 <= i < |ds + [c]| ==> IsDigit((ds + [c])[i])
    ensures DigitsValue(ds + [c]) == 10 * DigitsValue(ds) + (c as int - '0' as int)
  {
    assert (ds + [c])[..|ds|] == ds;
  }

  function Digit(c: char): int {
    c as int - '0' as int
  }

  lemma ThreeMoreDigits(ds: string, x: char, y: char, z: char)
    requires (forall i :: 0 <= i < |ds| ==> IsDigit(ds[i])) && IsDigit(x) && IsDigit(y) && IsDigit(z)
    ensures
      var more := ds + [x, y, z];
      && (forall i :: 0 <= i < |more| ==> IsDigit(more[i]))
      && DigitsValue(more) == 1000 * DigitsValue(ds) + 100 * Digit(x) + 10 * Digit(y) + Digit(z)
  {
    DigitsValueStep(ds, x);
    DigitsValueStep(ds + [x], y);
    DigitsValueStep(ds + [x] + [y], z);
    assert ds + [x] + [y] + [z] == ds + [x, y, z];
  }

  const HUGE_COUNT: string := "281474976710663"

  lemma HugeCountBegins()
    ensures AllDigits("281474976") && DigitsValue("281474976") == 281474976
  {
    ThreeMoreDigits("", '2', '8', '1');
    assert "" + ['2', '8', '1'] == "281";
    ThreeMoreDigits("281", '4', '7', '4');
    assert "281" + ['4', '7', '4'] == "281474";
    ThreeMoreDigits("281474", '9', '7', '6');
    assert "281474" + ['9', '7', '6'] == "281474976";
  }

  lemma HugeCountIsANumber()
    ensures Atoi(HUGE_COUNT) == Some(281474976710663)
  {
    HugeCountBegins();
    ThreeMoreDigits("281474976", '7', '1', '0');
    assert "281474976" + ['7', '1', '0'] == "281474976710";
    ThreeMoreDigits("281474976710", '6', '6', '3');
    assert "281474976710" + ['6', '6', '3'] == HUGE_COUNT;
  }

  /** Beyond that it wraps, and a huge count in a config can be read as a week. */
  lemma DaysCanWrapToAWeek(goParse: GoParser)
    ensures ParseDuration(goParse, "281474976710663d") == Some(7 * DAY)
  {
    var s := "281474976710663d";
    assert s[..|s| - 1] == HUGE_COUNT;
    HugeCountIsANumber();
    assert 281474976710663 * 24 * HOUR == 7 * DAY + 1318359375 * TWO_64;
  }

  // ----- written counts -----

  function Decimal(n: nat): string {
    if n < 10 then [('0' as int + n) as char]
    else Decimal(n / 10) + [('0' as int + n % 10) as char]
  }

  function Rendered(n: int): string {
    if n < 0 then "-" + Decimal(-n) else Decimal(n)
  }

  lemma {:induction false} DecimalReadsBack(n: nat)
    ensures AllDigits(Decimal(n)) && DigitsValue(Decimal(n)) == n
  {
    if n < 10 {
      assert Decimal(n)[..0] == "";
    } else {
      DecimalReadsBack(n / 10);
      DigitsValueStep(Decimal(n / 10), ('0' as int + n % 10) as char);
    }
  }

  /** A minus sign in front of the digits negates the count, a plus sign does nothing. */
  lemma SignOfCount(ds: string)
    requires AllDigits(ds) && DigitsValue(ds) < TWO_63
    ensures
      var n: int := DigitsValue(ds);
      Atoi(ds) == Some(n) && Atoi("-" + ds) == Some(-n) && Atoi("+" + ds) == Some(n)
  {
    assert IsDigit(ds[0]);
    assert ("-" + ds)[1..] == ds && ("+" + ds)[1..] == ds;
  }

  /** A count written in decimal and followed by "d" parses to that many days. */
  lemma WrittenDaysParse(goParse: GoParser, n: int)
    requires -106751 <= n <= 106751
    ensures ParseDuration(goParse, Rendered(n) + "d") == Some(n * DAY)
  {
    var size: nat := if n < 0 then -n else n;
    var digits := Decimal(size);
    DecimalReadsBack(size);
    SignOfCount(digits);
    var s := Rendered(n) + "d";
    assert s[..|s| - 1] == Rendered(n);
    DaysAreExact(n);
  }
}
