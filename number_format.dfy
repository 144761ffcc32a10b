/**
 * `format_number` (app/utils.py, lines 133-140): a count shown as "1.5M",
 * "12.3K" or plainly, and "0" for anything `int()` rejects.
 */
module NumberFormat {
  import opened Wrappers
  import opened Decimal
  import opened Arith

  /** The argument: a value `int()` converts, or one it rejects. */
  datatype NumberArg = Int(i: int) | NotANumber

  /**
   * The number of tenths of `unit` nearest to n (halves rounded up): the
   * digits `f"{n / unit:.1f}"` prints, without the point.
   */
  function TenthsOf(n: nat, unit: nat): (t: nat)
    requires unit > 0
    ensures -(unit as int) <= 20 * n - 2 * unit * t <= unit
  {
    var q := (20 * n + unit) / (2 * unit);
    DivBounds(20 * n + unit, 2 * unit);
    q
  }

  /** A count of tenths written with one decimal place: 125 as "12.5". */
  function OneDecimal(t: nat): (s: string)
    ensures |s| >= 3 && s[|s| - 2] == '.' && IsDigit(s[|s| - 1])
    ensures AllDigits(s[..|s| - 2])
  {
    NatToString(t / 10) + "." + [DigitChar(t % 10)]
  }

  function FormatNumber(x: NumberArg): (s: string)
    ensures |s| >= 1
    ensures x.NotANumber? ==> s == "0"
    ensures x.Int? ==> (s[|s| - 1] == 'M' <==> x.i >= 1_000_000)
    ensures x.Int? ==> (s[|s| - 1] == 'K' <==> 1000 <= x.i < 1_000_000)
  {
    match x
    case NotANumber => "0"
    case Int(n) =>
      if n >= 1_000_000 then OneDecimal(TenthsOf(n, 1_000_000)) + "M"
      else if n >= 1000 then OneDecimal(TenthsOf(n, 1000)) + "K"
      else IntToString(n)
  }

  /** What a reader takes a formatted count to mean. */
  datatype Reading = Exact(value: int) | Approx(tenths: nat, unit: nat)

  /** Reads "12.5K" as 125 tenths of a thousand and "-7" as exactly -7. */
  function ReadFormatted(s: string): Option<Reading> {
    if |s| >= 1 && (s[|s| - 1] == 'M' || s[|s| - 1] == 'K') then
      var body := s[..|s| - 1];
      var unit := if s[|s| - 1] == 'M' then 1_000_000 else 1000;
      if |body| >= 3 && body[|body| - 2] == '.' && AllDigits(body[..|body| - 2]) && IsDigit(body[|body| - 1])
      then Some(Approx(DigitsValue(body[..|body| - 2]) * 10 + DigitValue(body[|body| - 1]), unit))
      else None
    else
      match ParseInt(s)
      case Some(v) => Some(Exact(v))
      case None => None
  }

  /**
   * What `format_number` shows is read back as the exact number below 1000,
   * and otherwise as the number of thousands or millions to within half a
   * tenth.
   */
  lemma FormatNumberReadsBack(n: int)
    ensures var r := ReadFormatted(FormatNumber(Int(n)));
      && r.Some?
      && (n < 1000 ==> r.value == Exact(n))
      && (n >= 1000 ==>
            && r.value.Approx?
            && r.value.unit == (if n >= 1_000_000 then 1_000_000 else 1000)
            && -(r.value.unit as int) <= 20 * n - 2 * r.value.unit * r.value.tenths <= r.value.unit)
  {
    if n >= 1000 {
      var unit := if n >= 1_000_000 then 1_000_000 else 1000;
      var t := TenthsOf(n, unit);
      var s := FormatNumber(Int(n));
      assert s == OneDecimal(t) + (if n >= 1_000_000 then "M" else "K");
      var body := s[..|s| - 1];
      assert body == OneDecimal(t);
      assert body[..|body| - 2] == NatToString(t / 10);
      DigitsValueOfNatToString(t / 10);
      assert DigitsValue(body[..|body| - 2]) * 10 + DigitValue(body[|body| - 1]) == t;
    } else {
      ParseIntOfIntToString(n);
    }
  }
}
