/**
 * The two formatting helpers: the message built from a list of field validation
 * errors, and the `D-M-YYYY` rendering of a date.
 */
module Utils {
  import opened Wrappers
  import Text

  /** One entry of a validation error list: its message and the field it concerns. */
  datatype FieldError = FieldError(msg: string, path: string)

  /** The message used when the error list is empty. */
  const Fallback: string := "Error occured!Check your input"

  /** What one error contributes: `<msg> in <path>. `. */
  function Piece(e: FieldError): (p: string)
    ensures |p| >= 2 && p[|p| - 2..] == ". "
  {
    e.msg + " in " + e.path + ". "
  }

  /** The pieces of all errors, concatenated in list order. */
  function Pieces(errors: seq<FieldError>): string
  {
    if errors == [] then "" else Piece(errors[0]) + Pieces(errors[1..])
  }

  /** One more error at the end of the list adds exactly its piece at the end of the message. */
  lemma {:induction false} PiecesAppend(errors: seq<FieldError>, e: FieldError)
    ensures Pieces(errors + [e]) == Pieces(errors) + Piece(e)
  {
    if errors == [] {
      assert [e][1..] == [];
    } else {
      assert (errors + [e])[1..] == errors[1..] + [e];
      PiecesAppend(errors[1..], e);
    }
  }

  /** The message of a non-empty list ends with the last error's piece, hence with `. `. */
  lemma {:induction false} PiecesEnd(errors: seq<FieldError>)
    requires errors != []
    ensures var m := Pieces(errors); |m| >= 2 && m[|m| - 2..] == ". "
  {
    var m := Pieces(errors);
    if |errors| > 1 {
      PiecesEnd(errors[1..]);
      var rest := Pieces(errors[1..]);
      assert m[|m| - 2..] == rest[|rest| - 2..];
    } else {
      assert Pieces(errors[1..]) == "";
      assert m == Piece(errors[0]);
    }
  }

  /**
   * `generateFieldValidationErrorMessage`: the pieces of the errors in order, or the
   * fallback text when there are none; the two cases can never give the same text.
   */
  method GenerateFieldValidationErrorMessage(errors: seq<FieldError>) returns (message: string)
    ensures errors == [] ==> message == Fallback
    ensures errors != [] ==> message == Pieces(errors)
    ensures errors != [] ==> |message| >= 2 && message[|message| - 2..] == ". " && message != Fallback
  {
    message := "";
    if |errors| > 0 {
      for i := 0 to |errors|
        invariant message == Pieces(errors[..i])
      {
        assert errors[..i + 1] == errors[..i] + [errors[i]];
        PiecesAppend(errors[..i], errors[i]);
        message := message + Piece(errors[i]);
      }
      assert errors[..|errors|] == errors;
      PiecesEnd(errors);
      assert Fallback[|Fallback| - 2..] != ". ";
    } else {
      message := Fallback;
    }
  }

  /** What `getDate()`, `getMonth()` (counted from 0) and `getFullYear()` give for a date. */
  datatype CalendarDate = CalendarDate(day: int, month: int, year: int)

  /** `getFormattedDay`: `day-month-year` with the month counted from 1; null for no date. */
  function FormattedDay(date: Option<CalendarDate>): (r: Option<string>)
    ensures r.None? <==> date.None?
  {
    match date
    case None => None
    case Some(d) =>
      Some(Text.IntToDecimal(d.day) + "-" + Text.IntToDecimal(d.month + 1) + "-" + Text.IntToDecimal(d.year))
  }

  /** A date whose three printed numbers carry no sign. */
  predicate Unsigned(d: CalendarDate) {
    d.day >= 0 && d.month >= -1 && d.year >= 0
  }

  /** A non-empty run of decimal digits. */
  predicate Numeral(p: string) {
    p != [] && Text.IsDigits(p)
  }

  /** Reads a `D-M-YYYY` text back into a date, taking the month back to counting from 0. */
  function ParseFormattedDay(s: string): Option<CalendarDate> {
    DateOfParts(Text.Split(s, '-'))
  }

  /** The date spelled by three numerals. */
  function DateOfParts(parts: seq<string>): Option<CalendarDate> {
    if |parts| == 3 && Numeral(parts[0]) && Numeral(parts[1]) && Numeral(parts[2]) then
      Some(CalendarDate(Text.ParseDecimal(parts[0]), Text.ParseDecimal(parts[1]) - 1, Text.ParseDecimal(parts[2])))
    else
      None
  }

  /** The rendering of an unsigned date splits on `-` into exactly its three numbers. */
  lemma FormattedDayParts(d: CalendarDate)
    requires Unsigned(d)
    ensures Text.Split(FormattedDay(Some(d)).value, '-')
         == [Text.NatToDecimal(d.day), Text.NatToDecimal(d.month + 1), Text.NatToDecimal(d.year)]
  {
    var a, b, c := Text.NatToDecimal(d.day), Text.NatToDecimal(d.month + 1), Text.NatToDecimal(d.year);
    assert '-' !in a && '-' !in b && '-' !in c;
    var s := FormattedDay(Some(d)).value;
    assert s == a + "-" + b + "-" + c;
    assert s == a + ['-'] + (b + ['-'] + c);
    Text.SplitCons(a, '-', b + ['-'] + c);
    Text.SplitCons(b, '-', c);
    assert Text.Split(c, '-') == [c];
  }

  /** Three numerals read as a date. */
  lemma DateOfNumerals(a: string, b: string, c: string)
    requires Numeral(a) && Numeral(b) && Numeral(c)
    ensures DateOfParts([a, b, c])
         == Some(CalendarDate(Text.ParseDecimal(a), Text.ParseDecimal(b) - 1, Text.ParseDecimal(c)))
  {
  }

  /** The rendering loses nothing: reading it back gives the same date. */
  lemma FormattedDayRoundTrip(d: CalendarDate)
    requires Unsigned(d)
    ensures ParseFormattedDay(FormattedDay(Some(d)).value) == Some(d)
  {
    var a, b, c := Text.NatToDecimal(d.day), Text.NatToDecimal(d.month + 1), Text.NatToDecimal(d.year);
    FormattedDayParts(d);
    DateOfNumerals(a, b, c);
    Text.DecimalRoundTrip(d.day);
    Text.DecimalRoundTrip(d.month + 1);
    Text.DecimalRoundTrip(d.year);
  }

  /**
   * No number is padded, and a month in 0..11 is printed as 1..12 in one or two digits.
   */
  lemma FormattedDayUnpadded(d: CalendarDate)
    requires d.day >= 1 && 0 <= d.month <= 11 && d.year >= 1
    ensures var parts := Text.Split(FormattedDay(Some(d)).value, '-');
            |parts| == 3
            && Numeral(parts[0]) && Numeral(parts[1]) && Numeral(parts[2])
            && parts[0][0] != '0' && parts[1][0] != '0' && parts[2][0] != '0'
            && 1 <= |parts[1]| <= 2 && 1 <= Text.ParseDecimal(parts[1]) <= 12
            && (d.day <= 9 ==> |parts[0]| == 1)
  {
    FormattedDayParts(d);
    Text.DecimalRoundTrip(d.month + 1);
  }
}
