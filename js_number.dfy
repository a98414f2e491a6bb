/**
 * JavaScript numbers as the app moves them through strings: whole years, ids,
 * page numbers and seconds, and scores with one decimal (the score slider steps
 * by 0.1). A number is kept exactly as a count of tenths; NaN is its own value.
 * `Parse` is `Number(s)` and `Str` is `String(n)` on that domain.
 */
module JsNumber {
  import opened Wrappers

  datatype Number = Tenths(tenths: int) | NaN

  /** The whole number `n`. */
  function Whole(n: int): Number {
    Tenths(10 * n)
  }

  /** JavaScript truthiness: `0` and `NaN` are falsy. */
  predicate Truthy(n: Number) {
    n.Tenths? && n.tenths != 0
  }

  /** `a + b`; NaN absorbs. */
  function Add(a: Number, b: Number): (r: Number)
    ensures r.Tenths? <==> a.Tenths? && b.Tenths?
  {
    if a.Tenths? && b.Tenths? then Tenths(a.tenths + b.tenths) else NaN
  }

  // ---------------------------------------------------------------------------
  // decimal digits

  predicate IsDigit(c: char) {
    '0' <= c <= '9'
  }

  predicate AllDigits(s: string) {
    forall i :: 0 <= i < |s| ==> IsDigit(s[i])
  }

  function DigitChar(d: nat): (c: char)
    requires d < 10
    ensures IsDigit(c)
  {
    ('0' as int + d) as char
  }

  function DigitValue(c: char): (d: nat)
    requires IsDigit(c)
    ensures d < 10 && DigitChar(d) == c
  {
    c as int - '0' as int
  }

  /** `${n}` for a whole non-negative number: its decimal digits, no leading zero. */
  function Show(n: nat): (r: string)
    ensures |r| >= 1 && AllDigits(r)
    ensures |r| > 1 ==> r[0] != '0'
    decreases n
  {
    if n < 10 then [DigitChar(n)] else Show(n / 10) + [DigitChar(n % 10)]
  }

  /** The value of a string of decimal digits. */
  function Value(s: string): nat
    requires AllDigits(s)
    decreases |s|
  {
    if s == [] then 0 else 10 * Value(s[..|s| - 1]) + DigitValue(s[|s| - 1])
  }

  /** Reading back the digits of `n` gives `n`. */
  lemma {:induction false} ValueShow(n: nat)
    ensures Value(Show(n)) == n
    decreases n
  {
    if n >= 10 {
      ValueShow(n / 10);
      var s := Show(n);
      assert s[..|s| - 1] == Show(n / 10);
    }
  }

  /** The digits of `n` fit in `k >= 1` characters exactly when `n` is below 10^k. */
  lemma {:induction false} ShowLength(n: nat, k: nat)
    requires k >= 1
    ensures |Show(n)| <= k <==> n < Pow10(k)
    decreases n
  {
    if n >= 10 && k > 1 {
      ShowLength(n / 10, k - 1);
    }
  }

  function Pow10(k: nat): (p: nat)
    ensures p >= 1
  {
    if k == 0 then 1 else 10 * Pow10(k - 1)
  }

  /** A non-empty run of digits, or nothing. */
  function ParseDigits(s: string): (r: Option<nat>)
    ensures r.Some? <==> s != [] && AllDigits(s)
  {
    if s != [] && AllDigits(s) then Some(Value(s)) else None
  }

  // ---------------------------------------------------------------------------
  // Number(s) and String(n)

  /** Tenths denoted by `d+` or `d+.d`; anything else has no value. */
  function Unsigned(s: string): Option<nat> {
    if |s| >= 3 && s[|s| - 2] == '.' && IsDigit(s[|s| - 1]) then
      match ParseDigits(s[..|s| - 2])
      case Some(w) => Some(10 * w + DigitValue(s[|s| - 1]))
      case None => None
    else
      match ParseDigits(s)
      case Some(w) => Some(10 * w)
      case None => None
  }

  /**
   * `Number(s)`: the empty string is 0, an optional minus sign followed by
   * digits with at most one decimal is that number, and every other string is
   * NaN.
   */
  function Parse(s: string): Number {
    if s == "" then Tenths(0)
    else if s[0] == '-' then
      match Unsigned(s[1..])
      case Some(t) => Tenths(-(t as int))
      case None => NaN
    else
      match Unsigned(s)
      case Some(t) => Tenths(t)
      case None => NaN
  }

  function ShowTenths(t: nat): (r: string)
    ensures |r| >= 1 && IsDigit(r[0])
  {
    if t % 10 == 0 then Show(t / 10) else Show(t / 10) + "." + [DigitChar(t % 10)]
  }

  /** `String(n)`. */
  function Str(n: Number): (r: string)
    ensures r != ""
  {
    match n
    case NaN => "NaN"
    case Tenths(t) => if t < 0 then "-" + ShowTenths(-t) else ShowTenths(t)
  }

  lemma UnsignedShowTenths(t: nat)
    ensures Unsigned(ShowTenths(t)) == Some(t)
  {
    var w := t / 10;
    var s := ShowTenths(t);
    ValueShow(w);
    if t % 10 == 0 {
      assert s == Show(w);
      assert !(|s| >= 3 && s[|s| - 2] == '.');
    } else {
      assert s[..|s| - 2] == Show(w);
    }
  }

  /** `Number(String(n)) === n` for every number of the domain (NaN included). */
  lemma ParseStr(n: Number)
    ensures Parse(Str(n)) == n
  {
    match n
    case NaN =>
    case Tenths(t) =>
      if t < 0 {
        UnsignedShowTenths(-t);
        assert Str(n)[1..] == ShowTenths(-t);
      } else {
        UnsignedShowTenths(t);
      }
  }

  /** A whole non-negative number prints as its digits. */
  lemma StrWhole(n: nat)
    ensures Str(Whole(n)) == Show(n)
  {
    StrWholeInt(n);
  }

  /** `String(n)` for a whole number: its digits, after a minus sign when negative. */
  function ShowWhole(n: int): (r: string)
    ensures r != ""
  {
    if n < 0 then "-" + Show(-n) else Show(n)
  }

  lemma StrWholeInt(n: int)
    ensures Str(Whole(n)) == ShowWhole(n)
  {
    var m := if n < 0 then -n else n;
    assert ShowTenths(10 * m) == Show(m) by {
      assert (10 * m) % 10 == 0 && (10 * m) / 10 == m;
    }
    assert Whole(n) == Tenths(10 * n);
  }
}
