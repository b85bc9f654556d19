/** Python values as they sit in a pandas DataFrame cell of backend/app.py, and
    what the grouped `sum` and `float()` make of them. */
module PyValues {
  import opened Wrappers
  import opened Text

  /** A DataFrame cell as it reaches the analysis: an integer, a text, or NaN. */
  datatype Cell = Num(n: int) | Str(s: string) | Blank

  /** The running `sum` of one group. pandas starts from the group's first
      non-NaN value and adds the next ones with Python's `+`: numbers add, texts
      concatenate, and a number meeting a text raises a TypeError (SumFailed).
      A group with no value yet is NoValue; its sum is 0. */
  datatype Total = NoValue | IntTotal(n: int) | TextTotal(s: string) | SumFailed

  /** One step of the grouped `sum`: NaN is skipped. */
  function Add(a: Total, c: Cell): (r: Total)
    ensures a == SumFailed ==> r == SumFailed
    ensures c == Blank ==> r == a
  {
    match c
    case Blank => a
    case Num(n) =>
      (match a
       case NoValue => IntTotal(n)
       case IntTotal(m) => IntTotal(m + n)
       case _ => SumFailed)
    case Str(s) =>
      (match a
       case NoValue => TextTotal(s)
       case TextTotal(t) => TextTotal(t + s)
       case _ => SumFailed)
  }

  /** `float(s)` for the texts the model reads: surrounding white space, an
      optional sign and at least one decimal digit. Any other text raises the
      ValueError (None). */
  function ParseFloatText(s: string): (r: Option<int>)
    ensures r.Some? ==> Trim(s, IsPySpace) != []
    ensures r.Some? && IsDigit(Trim(s, IsPySpace)[0]) ==> r.value >= 0
  {
    var t := Trim(s, IsPySpace);
    if t == [] then None
    else if t[0] == '-' || t[0] == '+' then
      var digits := t[1..];
      if digits != [] && AllDigits(digits) then
        var n: int := ParseNat(digits);
        Some(if t[0] == '-' then -n else n)
      else None
    else if AllDigits(t) then Some(ParseNat(t))
    else None
  }

  /** A decimal text has no white space at its ends, so Trim keeps it whole. */
  lemma DigitsUntrimmed(s: string)
    requires s != [] && (IsDigit(s[0]) || s[0] == '-') && IsDigit(s[|s| - 1])
    ensures Trim(s, IsPySpace) == s
  {
    assert !IsPySpace(s[0]);
    assert TrimStart(s, IsPySpace) == s;
  }

  /** `float(str(n))` gives back `n`. */
  lemma ParseFloatIntText(n: int)
    ensures ParseFloatText(IntToString(n)) == Some(n)
  {
    var s := IntToString(n);
    var m: nat := if n < 0 then -n else n;
    ParseNatToString(m);
    if n < 0 {
      assert s == "-" + NatToString(m);
      assert s[1..] == NatToString(m);
    }
    DigitsUntrimmed(s);
  }

  /** float() of a group's sum: 0 for a group without values, the number for a
      numeric sum, the parsed text for a text sum. A failed sum never reaches it. */
  function ToFloat(t: Total): (r: Option<int>)
    ensures t.IntTotal? ==> r == Some(t.n)
    ensures t.NoValue? ==> r == Some(0)
    ensures t.SumFailed? ==> r.None?
  {
    match t
    case NoValue => Some(0)
    case IntTotal(n) => Some(n)
    case TextTotal(s) => ParseFloatText(s)
    case SumFailed => None
  }
}
