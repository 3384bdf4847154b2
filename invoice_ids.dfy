/** Document numbers and due dates of the invoice editor (`generateId` and
    `calcDue` in src/components/portal/InvoiceView.tsx).  A number reads
    `PREFIX-YYMM-serial`; the serial survives any later change of the date
    or of the document type because it is read back as the last `-`
    segment.  The random draw `Math.floor(Math.random() * 9000)` is a
    parameter. */
module InvoiceIds {
  import opened Wrappers
  import opened Text
  import opened Dates

  /** `type === 'INVOICE' ? 'INV' : 'QUO'`. */
  function Prefix(docType: string): (p: string)
    ensures |p| == 3 && '-' !in p
    ensures p == "INV" <==> docType == "INVOICE"
    ensures p != "INV" ==> p == "QUO"
  {
    if docType == "INVOICE" then "INV" else "QUO"
  }

  /** `yy + mm` of `new Date(date)`: the last two characters of the year
      and the month padded to two digits; an invalid date gives
      `String(NaN).slice(-2)` and `String(NaN).padStart(2, '0')`. */
  function YearMonth(date: string): (r: string)
    ensures '-' !in r
    ensures ParseIso(date).None? ==> r == "aNNaN"
  {
    match ParseIso(date)
    case Some(d) =>
      var yy := TakeLast(NatToString(d.year), 2);
      var mm := PadStart(NatToString(d.month), 2, '0');
      DigitsTakeLast(NatToString(d.year), 2);
      DigitsPadStart(NatToString(d.month), 2);
      DigitsExclude(yy, '-');
      DigitsExclude(mm, '-');
      yy + mm
    case None =>
      // String(NaN).slice(-2) and String(NaN).padStart(2, '0')
      "aN" + "NaN"
  }

  /** `serial || String(draw + 1000)`: the given serial unless it is
      absent or empty, else the four digits of a number from 1000 to
      9999. */
  function ChosenSerial(serial: Option<string>, draw: int): (s: string)
    requires 0 <= draw < 9000
    ensures serial.Some? && serial.value != "" ==> s == serial.value
    ensures serial.None? || serial.value == "" ==> AllDigits(s) && DigitsValue(s) == draw + 1000
    ensures s != ""
  {
    if serial.Some? && serial.value != "" then serial.value
    else
      DigitsValueOfDecimal(draw + 1000);
      IntToString(draw + 1000)
  }

  /** `generateId(type, date, serial)`. */
  function GenerateId(docType: string, date: string, serial: Option<string>, draw: int): (id: string)
    requires 0 <= draw < 9000
    ensures |id| > 4 && id[..4] == Prefix(docType) + "-"
  {
    HeadOfId(Prefix(docType), YearMonth(date), ChosenSerial(serial, draw));
    Prefix(docType) + "-" + YearMonth(date) + "-" + ChosenSerial(serial, draw)
  }

  /** The first four characters of `p-m-s` for a three-letter `p`. */
  lemma HeadOfId(p: string, m: string, s: string)
    requires |p| == 3
    ensures |p + "-" + m + "-" + s| > 4 && (p + "-" + m + "-" + s)[..4] == p + "-"
  {
    assert p + "-" + m + "-" + s == (p + "-") + (m + "-" + s);
  }

  /** A given serial without `-` is the last segment of the number. */
  lemma SerialIsLastSegment(docType: string, date: string, serial: string, draw: int)
    requires 0 <= draw < 9000 && serial != "" && '-' !in serial
    ensures LastSegment(GenerateId(docType, date, Some(serial), draw), '-') == serial
  {
    LastSegmentOfJoined(Prefix(docType) + "-" + YearMonth(date), serial, '-');
  }

  /** A fresh number (no serial, or an empty one) ends in its four-digit
      random serial. */
  lemma FreshSerial(docType: string, date: string, serial: Option<string>, draw: int)
    requires 0 <= draw < 9000 && (serial.None? || serial.value == "")
    ensures var s := LastSegment(GenerateId(docType, date, serial, draw), '-');
            AllDigits(s) && DigitsValue(s) == draw + 1000
  {
    var s := ChosenSerial(serial, draw);
    assert '-' !in s by {
      assert forall i :: 0 <= i < |s| ==> IsDigit(s[i]);
    }
    LastSegmentOfJoined(Prefix(docType) + "-" + YearMonth(date), s, '-');
  }

  /** Regenerating a number from the last segment of any earlier one gives
      that segment back, whatever the new type and date; only an earlier
      number ending in `-` gets a new random serial. */
  lemma RegenerateKeepsSerial(oldId: string, docType: string, date: string, draw: int)
    requires 0 <= draw < 9000 && LastSegment(oldId, '-') != ""
    ensures LastSegment(GenerateId(docType, date, Some(LastSegment(oldId, '-')), draw), '-') == LastSegment(oldId, '-')
  {
    SerialIsLastSegment(docType, date, LastSegment(oldId, '-'), draw);
  }

  /** The last two digits of a number of at least two digits. */
  lemma LastTwoDigits(n: nat)
    requires n >= 10
    ensures TakeLast(NatToString(n), 2) == Digit2(n % 100)
  {
    var q := n / 10;
    var head := NatToString(q);
    var c1, c0 := DigitChar(q % 10), DigitChar(n % 10);
    assert NatToString(n) == head + [c0];
    LastDigit(q);
    TensDigit(n);
    assert TakeLast(head + [c0], 2) == [c1, c0] by {
      assert |head + [c0]| >= 2;
    }
  }

  /** The last character of `String(n)`. */
  lemma LastDigit(n: nat)
    ensures NatToString(n)[|NatToString(n)| - 1] == DigitChar(n % 10)
  {
  }

  lemma TensDigit(n: nat)
    ensures (n % 100) / 10 == (n / 10) % 10 && (n % 100) % 10 == n % 10
  {
    var a, b := n / 100, (n / 10) % 10;
    assert n / 10 == 10 * a + b;
    assert n == 100 * a + 10 * b + n % 10;
  }

  /** A month number padded to two digits. */
  lemma MonthDigits(m: int)
    requires 1 <= m <= 12
    ensures PadStart(NatToString(m), 2, '0') == Digit2(m)
  {
    var c := DigitChar(m % 10);
    if m >= 10 {
      assert m / 10 == 1;
      assert NatToString(m) == NatToString(1) + [c];
    } else {
      assert m / 10 == 0 && m % 10 == m;
      assert NatToString(m) == [c];
      assert PadStart([c], 2, '0') == PadStart(['0', c], 2, '0');
    }
  }

  /** For a valid date from year 10 on, the number is the prefix, the last
      two digits of the year, the two-digit month and the serial. */
  lemma IdOfValidDate(docType: string, date: string, serial: Option<string>, draw: int)
    requires 0 <= draw < 9000 && ParseIso(date).Some? && ParseIso(date).value.year >= 10
    ensures var d := ParseIso(date).value;
            GenerateId(docType, date, serial, draw)
              == Prefix(docType) + "-" + (Digit2(d.year % 100) + Digit2(d.month)) + "-" + ChosenSerial(serial, draw)
  {
    var d := ParseIso(date).value;
    YearMonthOfValid(date, d);
  }

  lemma YearMonthOfValid(date: string, d: Date)
    requires ParseIso(date) == Some(d) && d.year >= 10
    ensures YearMonth(date) == Digit2(d.year % 100) + Digit2(d.month)
  {
    LastTwoDigits(d.year);
    MonthDigits(d.month);
  }

  /** `calcDue(date)`: the date part of `toISOString()` of the day fifteen
      days later; `None` is the `RangeError` that `toISOString` throws for
      an invalid date. */
  function CalcDue(date: string): (r: Option<string>)
    ensures r.None? <==> ParseIso(date).None?
  {
    match ParseIso(date)
    case Some(d) => Some(FormatIso(AddDays(d, 15)))
    case None => None
  }

  /** The due date reads back as the day fifteen days after the document
      date (while it stays within four-digit years). */
  lemma DueFifteenDaysLater(date: string)
    requires ParseIso(date).Some? && AddDays(ParseIso(date).value, 15).year <= 9999
    ensures CalcDue(date).Some?
    ensures ParseIso(CalcDue(date).value).Some?
    ensures DayNumber(ParseIso(CalcDue(date).value).value) == DayNumber(ParseIso(date).value) + 15
  {
    ParseFormatIso(AddDays(ParseIso(date).value, 15));
  }

  /** A formatted valid date has a due date. */
  lemma DueOfFormatted(d: Date)
    requires Valid(d) && d.year <= 9999
    ensures CalcDue(FormatIso(d)).Some?
  {
    ParseFormatIso(d);
  }
}
