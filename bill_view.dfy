/**
 * The transaction list screen of BillView.swift: the year picker's choices,
 * the month and year views, multi-selection with select-all and bulk delete,
 * amount and channel styling, and CSV import (file-name period detection,
 * row parsing, insertion).
 *
 * The `@Query` result (bills by date, newest first) is taken as the given
 * order of the store's bill list.  Date parsing, month-name parsing and
 * number parsing are the foreign formatters, passed in as `Parsers`.
 */
module BillView {
  import opened Common
  import opened Models

  datatype EditMode = Active | Inactive

  datatype Color = Green | Blue | Red

  // ---------------------------------------------------------------------------
  // Period selection

  predicate StrictlyDescending(l: seq<int>) {
    forall i, j :: 0 <= i < j < |l| ==> l[i] > l[j]
  }

  /** Adds `y` to a descending list of distinct years, unless it is already there. */
  function InsertYear(y: int, l: seq<int>): (r: seq<int>)
    ensures forall x :: x in r <==> x == y || x in l
    ensures StrictlyDescending(l) ==> StrictlyDescending(r)
  {
    if l == [] || y > l[0] then [y] + l
    else if y == l[0] then l
    else
      var rest := InsertYear(y, l[1..]);
      assert forall x :: x in rest ==> x == y || x in l[1..];
      assert StrictlyDescending(l) ==> forall k :: 0 <= k < |l[1..]| ==> l[1..][k] < l[0];
      assert StrictlyDescending(l) ==> forall x :: x in rest ==> x < l[0];
      assert StrictlyDescending(l) ==> forall i :: 0 <= i < |rest| ==> rest[i] < l[0];
      [l[0]] + rest
  }

  /** `Set(transactions.map { $0.year })` sorted with `>`. */
  function YearsDesc(bills: seq<BillItem>, cal: Calendar): (r: seq<int>)
    reads bills
    ensures StrictlyDescending(r)
    ensures forall y :: y in r <==> exists i :: 0 <= i < |bills| && bills[i].Year(cal) == y
  {
    if bills == [] then []
    else
      var p := bills[..|bills| - 1];
      assert forall i :: 0 <= i < |p| ==> p[i] == bills[i];
      InsertYear(bills[|bills| - 1].Year(cal), YearsDesc(p, cal))
  }

  /** `availableYears`: the distinct years of the bills, newest first; the selected year when there are none. */
  function AvailableYears(bills: seq<BillItem>, cal: Calendar, selectedYear: int): (r: seq<int>)
    reads bills
    ensures |r| >= 1 && StrictlyDescending(r)
    ensures bills == [] ==> r == [selectedYear]
    ensures bills != [] ==> forall y :: y in r <==> exists i :: 0 <= i < |bills| && bills[i].Year(cal) == y
  {
    var ys := YearsDesc(bills, cal);
    if ys == [] then
      assert bills == [];
      [selectedYear]
    else ys
  }

  /**
   * The picker offers exactly the selected year when there are no bills, but
   * also when every bill falls in the selected year.
   */
  lemma AvailableYearsSingleton(bills: seq<BillItem>, cal: Calendar, selectedYear: int)
    ensures AvailableYears(bills, cal, selectedYear) == [selectedYear] <==>
      forall i :: 0 <= i < |bills| ==> bills[i].Year(cal) == selectedYear
  {
    var r := AvailableYears(bills, cal, selectedYear);
    if bills != [] {
      if forall i :: 0 <= i < |bills| ==> bills[i].Year(cal) == selectedYear {
        assert selectedYear in r by {
          assert bills[0].Year(cal) == selectedYear;
        }
        assert forall y :: y in r ==> y == selectedYear;
        forall i | 0 <= i < |r|
          ensures r[i] == selectedYear
        {
          assert r[i] in r;
        }
        DescendingOfOneValue(r, selectedYear);
      }
      if r == [selectedYear] {
        forall i | 0 <= i < |bills|
          ensures bills[i].Year(cal) == selectedYear
        {
          assert bills[i].Year(cal) in r;
        }
      }
    }
  }

  /** A strictly descending list repeats no value, so it holds a single value at most once. */
  lemma DescendingOfOneValue(r: seq<int>, v: int)
    requires StrictlyDescending(r)
    requires forall i :: 0 <= i < |r| ==> r[i] == v
    ensures |r| <= 1
  {
    FirstTwoDescend(r);
  }

  lemma FirstTwoDescend(r: seq<int>)
    requires StrictlyDescending(r)
    ensures |r| >= 2 ==> r[0] > r[1]
  {
  }

  /** `yearlyTransactions`: the bills of one year, in list order. */
  function Yearly(bills: seq<BillItem>, cal: Calendar, year: int): (r: seq<BillItem>)
    reads bills
    ensures IsSubsequence(r, bills)
    ensures forall i :: 0 <= i < |r| ==> r[i].Year(cal) == year
    ensures forall i :: 0 <= i < |bills| && bills[i].Year(cal) == year ==> bills[i] in r
  {
    if bills == [] then []
    else
      var p, x := bills[..|bills| - 1], bills[|bills| - 1];
      var rest := Yearly(p, cal, year);
      assert forall i :: 0 <= i < |p| ==> p[i] == bills[i];
      if x.Year(cal) == year then
        assert (rest + [x])[..|rest|] == rest;
        rest + [x]
      else rest
  }

  /** Keeps the bills of one month number, in list order. */
  function OfMonth(bills: seq<BillItem>, cal: Calendar, month: int): (r: seq<BillItem>)
    reads bills
    ensures IsSubsequence(r, bills)
    ensures forall i :: 0 <= i < |r| ==> r[i].Month(cal) == month
  {
    if bills == [] then []
    else
      var p, x := bills[..|bills| - 1], bills[|bills| - 1];
      var rest := OfMonth(p, cal, month);
      if x.Month(cal) == month then
        assert (rest + [x])[..|rest|] == rest;
        rest + [x]
      else rest
  }

  /** `monthlyTransactions`: the bills of one year and month, in list order. */
  function Monthly(bills: seq<BillItem>, cal: Calendar, year: int, month: int): (r: seq<BillItem>)
    reads bills
    ensures IsSubsequence(r, bills)
    ensures forall i :: 0 <= i < |r| ==> r[i].Year(cal) == year && r[i].Month(cal) == month
    ensures forall i :: 0 <= i < |bills| && bills[i].Year(cal) == year && bills[i].Month(cal) == month ==> bills[i] in r
  {
    if bills == [] then []
    else
      var p, x := bills[..|bills| - 1], bills[|bills| - 1];
      var rest := Monthly(p, cal, year, month);
      assert forall i :: 0 <= i < |p| ==> p[i] == bills[i];
      if x.Year(cal) == year && x.Month(cal) == month then
        assert (rest + [x])[..|rest|] == rest;
        rest + [x]
      else rest
  }

  /** The month view is the year view narrowed to the month, so it lies within the year view. */
  lemma {:induction false} MonthlyWithinYearly(bills: seq<BillItem>, cal: Calendar, year: int, month: int)
    ensures Monthly(bills, cal, year, month) == OfMonth(Yearly(bills, cal, year), cal, month)
    ensures IsSubsequence(Monthly(bills, cal, year, month), Yearly(bills, cal, year))
    decreases |bills|
  {
    if bills != [] {
      var p, x := bills[..|bills| - 1], bills[|bills| - 1];
      MonthlyWithinYearly(p, cal, year, month);
      if x.Year(cal) == year {
        var y := Yearly(p, cal, year);
        assert (y + [x])[..|y|] == y;
      }
    }
  }

  // ---------------------------------------------------------------------------
  // Selection and bulk delete

  /** The ids of a list of bills (`Set(items.map { $0.id })`). */
  function IdsOf(items: seq<BillItem>): set<Id> {
    set i | 0 <= i < |items| :: items[i].id
  }

  /** `transactions.filter { selection.contains($0.id) }`. */
  function Selected(bills: seq<BillItem>, sel: set<Id>): (r: seq<BillItem>)
    ensures forall k :: 0 <= k < |r| ==> r[k].id in sel
    ensures forall i :: 0 <= i < |bills| ==> (bills[i] in r <==> bills[i].id in sel)
  {
    if bills == [] then []
    else
      var p, x := bills[..|bills| - 1], bills[|bills| - 1];
      assert forall i :: 0 <= i < |p| ==> p[i] == bills[i];
      var rest := Selected(p, sel);
      if x.id in sel then rest + [x] else rest
  }

  /** The bills whose id is not selected, in list order. */
  function Unselected(bills: seq<BillItem>, sel: set<Id>): (r: seq<BillItem>)
    ensures IsSubsequence(r, bills)
    ensures forall i :: 0 <= i < |r| ==> r[i].id !in sel
    ensures forall i :: 0 <= i < |bills| && bills[i].id !in sel ==> bills[i] in r
  {
    if bills == [] then []
    else
      var p, x := bills[..|bills| - 1], bills[|bills| - 1];
      var rest := Unselected(p, sel);
      assert forall i :: 0 <= i < |p| ==> p[i] == bills[i];
      if x.id !in sel then
        assert (rest + [x])[..|rest|] == rest;
        rest + [x]
      else rest
  }

  /** The bills that are not among `xs`, in list order. */
  function Without(bills: seq<BillItem>, xs: seq<BillItem>): seq<BillItem> {
    if bills == [] then []
    else Without(bills[..|bills| - 1], xs) + (if bills[|bills| - 1] in xs then [] else [bills[|bills| - 1]])
  }

  /** `Without` with nothing to remove keeps every bill. */
  lemma {:induction false} WithoutNothing(bills: seq<BillItem>)
    ensures Without(bills, []) == bills
    decreases |bills|
  {
    if bills != [] {
      WithoutNothing(bills[..|bills| - 1]);
    }
  }

  lemma WithoutBillSnoc(w: seq<BillItem>, y: BillItem, x: BillItem)
    ensures WithoutBill(w + [y], x) == WithoutBill(w, x) + (if y == x then [] else [y])
  {
    assert (w + [y])[..|w|] == w;
  }

  lemma {:induction false} WithoutBillStep(bills: seq<BillItem>, xs: seq<BillItem>, x: BillItem)
    ensures WithoutBill(Without(bills, xs), x) == Without(bills, xs + [x])
    decreases |bills|
  {
    if bills != [] {
      var p, y := bills[..|bills| - 1], bills[|bills| - 1];
      WithoutBillStep(p, xs, x);
      var w := Without(p, xs);
      assert Without(bills, xs) == w + (if y in xs then [] else [y]);
      assert Without(bills, xs + [x]) == Without(p, xs + [x]) + (if y in xs + [x] then [] else [y]);
      assert y in xs + [x] <==> y in xs || y == x;
      if y in xs {
        assert w + [] == w;
      } else {
        WithoutBillSnoc(w, y, x);
      }
    }
  }

  lemma {:induction false} WithoutSelection(bills: seq<BillItem>, xs: seq<BillItem>, sel: set<Id>)
    requires forall i :: 0 <= i < |bills| ==> (bills[i] in xs <==> bills[i].id in sel)
    ensures Without(bills, xs) == Unselected(bills, sel)
    decreases |bills|
  {
    if bills != [] {
      var p := bills[..|bills| - 1];
      assert forall i :: 0 <= i < |p| ==> p[i] == bills[i];
      WithoutSelection(p, xs, sel);
    }
  }

  /** The ids of a list, as the list of them. */
  function IdList(items: seq<BillItem>): (r: seq<Id>)
    ensures |r| == |items| && forall i :: 0 <= i < |r| ==> r[i] == items[i].id
  {
    if items == [] then [] else [items[0].id] + IdList(items[1..])
  }

  /** The ids of some rows are the elements of their id list. */
  lemma IdsOfIsIdList(items: seq<BillItem>)
    ensures IdsOf(items) == set i | 0 <= i < |IdList(items)| :: IdList(items)[i]
  {
    var ids := IdList(items);
    forall x | x in IdsOf(items) ensures x in set i | 0 <= i < |ids| :: ids[i] {
      var i :| 0 <= i < |items| && items[i].id == x;
      assert ids[i] == x;
    }
  }

  /**
   * The select-all button as written: it compares only the size of the current
   * selection with the number of rows shown.
   */
  function SelectAll(selection: set<Id>, shown: seq<Id>): (r: set<Id>)
    ensures r == {} || forall i :: i in r <==> i in shown
    ensures |selection| != |shown| ==> forall i :: i in r <==> i in shown
  {
    if |selection| == |shown| then {} else set i | 0 <= i < |shown| :: shown[i]
  }

  /** Select-all clears the selection when as many ids are selected as rows are shown, even other rows' ids. */
  lemma SelectAllClearsUnrelatedSelection()
    ensures SelectAll({1, 2}, [3, 4]) == {}
  {
    assert |{1, 2}| == 2 by {
      assert {1, 2} == {1} + {2};
    }
  }

  /** The evidently intended select-all: clear when every shown row is selected, otherwise select every shown row. */
  function SelectAllIntended(selection: set<Id>, shown: seq<Id>): (r: set<Id>)
    ensures r == {} || r == set i | 0 <= i < |shown| :: shown[i]
  {
    var all := set i | 0 <= i < |shown| :: shown[i];
    if all <= selection then {} else all
  }

  /** After the intended toggle, every shown row is selected unless all of them already were. */
  lemma SelectAllIntendedSpec(selection: set<Id>, shown: seq<Id>)
    ensures var all := set i | 0 <= i < |shown| :: shown[i];
      SelectAllIntended(selection, shown) == (if all <= selection then {} else all)
    ensures var all := set i | 0 <= i < |shown| :: shown[i];
      !(all <= selection) ==> all <= SelectAllIntended(selection, shown)
    ensures SelectAllIntended({}, shown) == set i | 0 <= i < |shown| :: shown[i]
  {
  }

  lemma {:induction false} DistinctIdsCount(shown: seq<Id>)
    requires forall i, j :: 0 <= i < j < |shown| ==> shown[i] != shown[j]
    ensures |set i | 0 <= i < |shown| :: shown[i]| == |shown|
    decreases |shown|
  {
    if shown != [] {
      var rest := shown[1..];
      DistinctIdsCount(rest);
      var a := set i | 0 <= i < |shown| :: shown[i];
      var b := set i | 0 <= i < |rest| :: rest[i];
      assert a == {shown[0]} + b by {
        forall x | x in a ensures x in {shown[0]} + b {
          var i :| 0 <= i < |shown| && shown[i] == x;
          if i > 0 {
            assert rest[i - 1] == x;
          }
        }
      }
      assert shown[0] !in b;
    }
  }

  /**
   * When the selection only holds ids of shown rows (which are distinct), the
   * size test is the intended one.
   */
  lemma SelectAllAgreesWithinMonth(selection: set<Id>, shown: seq<Id>)
    requires forall i, j :: 0 <= i < j < |shown| ==> shown[i] != shown[j]
    requires selection <= set i | 0 <= i < |shown| :: shown[i]
    ensures SelectAll(selection, shown) == SelectAllIntended(selection, shown)
  {
    var all := set i | 0 <= i < |shown| :: shown[i];
    DistinctIdsCount(shown);
    if |selection| == |shown| {
      assert |all - selection| == |all| - |selection|;
      assert all - selection == {};
    } else {
      assert selection != all;
    }
  }

  // ---------------------------------------------------------------------------
  // Row styling

  /**
   * `formatMoney(_:)`: a "+" for a positive amount, then the formatter's text
   * (or the plain description when the formatter gives none).
   */
  function FormatMoney(amount: real, format: real -> Option<string>, describe: real -> string): (r: string)
    ensures amount > 0.0 ==> |r| > 0 && r[0] == '+'
  {
    (if amount > 0.0 then "+" else "") + format(amount).GetOr(describe(amount))
  }

  /** When the number text never starts with "+", the result starts with "+" exactly for positive amounts. */
  lemma FormatMoneySign(amount: real, format: real -> Option<string>, describe: real -> string)
    requires var t := format(amount).GetOr(describe(amount)); t == [] || t[0] != '+'
    ensures var r := FormatMoney(amount, format, describe); (|r| > 0 && r[0] == '+') <==> amount > 0.0
  {
  }

  /** `channelColor(_:)`: WeChat green, then Alipay blue, anything else red, by substring. */
  function ChannelColor(channel: string): Color {
    if Contains(channel, "微信") then Green
    else if Contains(channel, "支付宝") then Blue
    else Red
  }

  /** The colour depends only on which of the two names the channel mentions, WeChat winning. */
  lemma ChannelColorSpec(channel: string)
    ensures ChannelColor(channel) == Green <==> Contains(channel, "微信")
    ensures ChannelColor(channel) == Blue <==> !Contains(channel, "微信") && Contains(channel, "支付宝")
    ensures ChannelColor(channel) == Red <==> !Contains(channel, "微信") && !Contains(channel, "支付宝")
  {
  }

  /** The form's five channels: WeChat green, Alipay blue, the other three red. */
  lemma FormChannelColors()
    ensures ChannelColor("微信") == Green
    ensures ChannelColor("支付宝") == Blue
    ensures ChannelColor("银行卡") == Red && ChannelColor("现金") == Red && ChannelColor("其他") == Red
  {
    assert StartsWith("微信", "微信");
    LacksChannelNames("支付宝");
    LacksChannelNames("银行卡");
    LacksChannelNames("现金");
    LacksChannelNames("其他");
    assert StartsWith("支付宝", "支付宝");
  }

  /** A text without the first character of a name does not contain the name. */
  lemma LacksChannelNames(s: string)
    requires '微' !in s
    ensures !Contains(s, "微信")
    ensures '支' !in s ==> !Contains(s, "支付宝")
  {
    ContainsChar(s, '微');
    ContainsChar(s, '支');
    if Contains(s, "微信") {
      ContainsPrefixOfPattern(s, "微信", "微");
    }
    if Contains(s, "支付宝") {
      ContainsPrefixOfPattern(s, "支付宝", "支");
    }
  }

  // ---------------------------------------------------------------------------
  // CSV rows

  /** The foreign parsers: `DateFormatter` by format, the "MMM" month-name formatter, and `Double(_:)`. */
  datatype Parsers = Parsers(
    date: (string, string) -> Option<Date>,
    monthName: string -> Option<Date>,
    number: string -> Option<real>)

  const DateFormats: seq<string> := ["yyyy年MM月dd日 HH:mm", "yyyy-MM-dd HH:mm:ss", "yyyy/MM/dd HH:mm", "yyyy-MM-dd", "yyyyMMdd"]

  /** The first format that parses `text` decides the date; later formats are not consulted. */
  function FirstParse(formats: seq<string>, text: string, parse: (string, string) -> Option<Date>): (r: Option<Date>)
    ensures r.None? <==> forall i :: 0 <= i < |formats| ==> parse(formats[i], text).None?
    ensures r.Some? ==> exists i :: 0 <= i < |formats| && parse(formats[i], text) == r &&
                          forall j :: 0 <= j < i ==> parse(formats[j], text).None?
  {
    if formats == [] then None
    else if parse(formats[0], text).Some? then parse(formats[0], text)
    else
      var r := FirstParse(formats[1..], text, parse);
      assert forall i :: 0 < i < |formats| ==> formats[i] == formats[1..][i - 1];
      r
  }

  /**
   * Moves a parsed date into the file's period: only with both a year and a
   * month, by rebuilding the date from its components with those two replaced;
   * when the calendar cannot build that date the parsed date stays.
   */
  function Override(date: Date, fixedYear: Option<int>, fixedMonth: Option<int>, cal: Calendar): Date {
    if fixedYear.Some? && fixedMonth.Some? then
      var comps := cal.components(date).(year := fixedYear.value, month := fixedMonth.value);
      cal.date(comps).GetOr(date)
    else date
  }

  /** Without both overrides the date is kept; with both, a date the calendar rebuilds exactly keeps day, hour and minute. */
  lemma OverrideSpec(date: Date, fixedYear: Option<int>, fixedMonth: Option<int>, cal: Calendar)
    ensures fixedYear.None? || fixedMonth.None? ==> Override(date, fixedYear, fixedMonth, cal) == date
    ensures fixedYear.Some? && fixedMonth.Some? ==>
      var c := cal.components(date);
      var wanted := c.(year := fixedYear.value, month := fixedMonth.value);
      var r := Override(date, fixedYear, fixedMonth, cal);
      (cal.date(wanted).Some? && cal.components(cal.date(wanted).value) == wanted) ==>
        cal.Year(r) == fixedYear.value && cal.Month(r) == fixedMonth.value &&
        cal.components(r).day == c.day && cal.components(r).hour == c.hour && cal.components(r).minute == c.minute
  {
  }

  /** The amount column with quotes and commas removed and spaces trimmed. */
  function CleanAmount(col: string): string {
    Trim(ReplaceAll(ReplaceAll(col, "\"", ""), ",", ""), Whitespaces)
  }

  /** The note column with quotes removed. */
  function CleanNote(col: string): string {
    ReplaceAll(col, "\"", "")
  }

  /** One data row: a record when it has six columns and a parseable date. */
  function ParseRow(row: string, fixedYear: Option<int>, fixedMonth: Option<int>, cal: Calendar, parsers: Parsers): Option<BillRecord> {
    var cols := Split(row, {','});
    if |cols| < 6 then None
    else
      match FirstParse(DateFormats, Trim(cols[0], WhitespacesAndNewlines), parsers.date)
      case None => None
      case Some(d) =>
        Some(BillRecord(Override(d, fixedYear, fixedMonth, cal), cols[1], cols[2], cols[3],
                        parsers.number(CleanAmount(cols[4])).GetOr(0.0), CleanNote(cols[5])))
  }

  /** The records of the data rows, in row order. */
  function ParseRows(rows: seq<string>, fixedYear: Option<int>, fixedMonth: Option<int>, cal: Calendar, parsers: Parsers): (r: seq<BillRecord>)
    ensures |r| <= |rows|
  {
    if rows == [] then []
    else
      var rest := ParseRows(rows[..|rows| - 1], fixedYear, fixedMonth, cal, parsers);
      match ParseRow(rows[|rows| - 1], fixedYear, fixedMonth, cal, parsers)
      case None => rest
      case Some(rec) => rest + [rec]
  }

  /** What `parseCSV` returns: every line but the first is a data row. */
  function ParsedCSV(data: string, fixedYear: Option<int>, fixedMonth: Option<int>, cal: Calendar, parsers: Parsers): seq<BillRecord> {
    ParseRows(Split(data, Newlines)[1..], fixedYear, fixedMonth, cal, parsers)
  }

  /** At most one record per line after the header. */
  lemma ParsedCSVBound(data: string, fixedYear: Option<int>, fixedMonth: Option<int>, cal: Calendar, parsers: Parsers)
    ensures |ParsedCSV(data, fixedYear, fixedMonth, cal, parsers)| <= |Split(data, Newlines)| - 1
  {
  }

  /** The first line is a header whatever it holds: a header followed by a line break is dropped. */
  lemma HeaderDropped(header: string, body: string, fixedYear: Option<int>, fixedMonth: Option<int>, cal: Calendar, parsers: Parsers)
    requires forall i :: 0 <= i < |header| ==> header[i] !in Newlines
    ensures ParsedCSV(header + "\n" + body, fixedYear, fixedMonth, cal, parsers) ==
            ParseRows(Split(body, Newlines), fixedYear, fixedMonth, cal, parsers)
  {
    SplitAfterFirst(header, '\n', body, Newlines);
  }

  /**
   * A row yields a record only with at least six columns and a date some format
   * accepts; the record takes type, category and channel verbatim, the note
   * without quotes, and 0 for an amount that does not parse.
   */
  lemma ParseRowSpec(row: string, fixedYear: Option<int>, fixedMonth: Option<int>, cal: Calendar, parsers: Parsers)
    ensures var cols := Split(row, {','});
      var date := FirstParse(DateFormats, Trim(cols[0], WhitespacesAndNewlines), parsers.date);
      && (ParseRow(row, fixedYear, fixedMonth, cal, parsers).Some? <==> |cols| >= 6 && date.Some?)
      && (ParseRow(row, fixedYear, fixedMonth, cal, parsers).Some? ==>
            var rec := ParseRow(row, fixedYear, fixedMonth, cal, parsers).value;
            && rec.date == Override(date.value, fixedYear, fixedMonth, cal)
            && rec.kind == cols[1] && rec.category == cols[2] && rec.channel == cols[3]
            && rec.note == CleanNote(cols[5]) && '"' !in rec.note
            && (parsers.number(CleanAmount(cols[4])).Some? ==> rec.amount == parsers.number(CleanAmount(cols[4])).value)
            && (parsers.number(CleanAmount(cols[4])).None? ==> rec.amount == 0.0))
  {
    var cols := Split(row, {','});
    if |cols| >= 6 {
      RemoveCharAbsent(cols[5], '"');
    }
  }

  /**
   * Removing commas from the amount column changes nothing: the row was already
   * split at every comma, so a quoted "1,234" never reaches this column whole.
   */
  lemma AmountCommaRemovalIsNoop(row: string)
    requires |Split(row, {','})| >= 6
    ensures var col := Split(row, {','})[4];
      CleanAmount(col) == Trim(ReplaceAll(col, "\"", ""), Whitespaces)
  {
    var cols := Split(row, {','});
    SplitPiecesClean(row, ',');
    assert ',' !in cols[4];
    var unquoted := ReplaceAll(cols[4], "\"", "");
    assert ',' !in unquoted by {
      QuoteRemovalAddsNothing(cols[4], ',');
    }
    ContainsChar(unquoted, ',');
    ReplaceAllAbsent(unquoted, ",", "");
  }

  /** Deleting a character adds no other character. */
  lemma {:induction false} QuoteRemovalAddsNothing(s: string, c: char)
    requires c !in s
    ensures c !in ReplaceAll(s, "\"", "")
    decreases |s|
  {
    if s != [] {
      QuoteRemovalAddsNothing(s[1..], c);
    }
  }

  /** `for format in dateFormats { ... break }`: tries the formats in order and stops at the first success. */
  method ParseFirstDate(text: string, parse: (string, string) -> Option<Date>) returns (date: Option<Date>)
    ensures date == FirstParse(DateFormats, text, parse)
  {
    date := None;
    var k := 0;
    while k < |DateFormats|
      invariant 0 <= k <= |DateFormats|
      invariant date.None?
      invariant FirstParse(DateFormats, text, parse) == FirstParse(DateFormats[k..], text, parse)
    {
      var d := parse(DateFormats[k], text);
      if d.Some? {
        date := d;
        return;
      }
      assert DateFormats[k..][1..] == DateFormats[k + 1..];
      k := k + 1;
    }
  }

  /** The body of `parseCSV`'s row loop: the record one row yields, if any. */
  method ParseCSVRow(row: string, fixedYear: Option<int>, fixedMonth: Option<int>, cal: Calendar, parsers: Parsers)
    returns (rec: Option<BillRecord>)
    ensures rec == ParseRow(row, fixedYear, fixedMonth, cal, parsers)
  {
    rec := None;
    var cols := Split(row, {','});
    if |cols| >= 6 {
      var dateStr := Trim(cols[0], WhitespacesAndNewlines);
      var date := ParseFirstDate(dateStr, parsers.date);
      if date.Some? {
        var validDate := date.value;
        if fixedYear.Some? && fixedMonth.Some? {
          var comps := cal.components(validDate);
          comps := comps.(year := fixedYear.value, month := fixedMonth.value);
          var newDate := cal.date(comps);
          if newDate.Some? {
            validDate := newDate.value;
          }
        }
        var rawAmt := Trim(ReplaceAll(ReplaceAll(cols[4], "\"", ""), ",", ""), Whitespaces);
        var amount := parsers.number(rawAmt).GetOr(0.0);
        rec := Some(BillRecord(validDate, cols[1], cols[2], cols[3], amount, ReplaceAll(cols[5], "\"", "")));
      }
    }
  }

  /** `parseCSV(data:fixedYear:fixedMonth:)`. */
  method ParseCSV(data: string, fixedYear: Option<int>, fixedMonth: Option<int>, cal: Calendar, parsers: Parsers)
    returns (res: seq<BillRecord>)
    ensures res == ParsedCSV(data, fixedYear, fixedMonth, cal, parsers)
  {
    res := [];
    var rows := Split(data, Newlines);
    if |rows| > 0 {
      rows := rows[1..];
    }
    var i := 0;
    while i < |rows|
      invariant 0 <= i <= |rows|
      invariant res == ParseRows(rows[..i], fixedYear, fixedMonth, cal, parsers)
    {
      assert rows[..i + 1][..i] == rows[..i];
      var rec := ParseCSVRow(rows[i], fixedYear, fixedMonth, cal, parsers);
      if rec.Some? {
        res := res + [rec.value];
      }
      i := i + 1;
    }
    assert rows[..i] == rows;
  }

  // ---------------------------------------------------------------------------
  // The import file's name

  predicate IsAsciiLetter(c: char) {
    'A' <= c <= 'Z' || 'a' <= c <= 'z'
  }

  /** The longest run of ASCII letters at the start (`[A-Za-z]+` cannot give a letter back before a "."). */
  function LetterRun(s: string): (r: string)
    ensures |r| <= |s| && r == s[..|r|]
    ensures forall i :: 0 <= i < |r| ==> IsAsciiLetter(r[i])
    ensures |r| == |s| || !IsAsciiLetter(s[|r|])
  {
    if s != [] && IsAsciiLetter(s[0]) then [s[0]] + LetterRun(s[1..]) else []
  }

  const FilePrefix: string := "PersonalBill-"

  /** `PersonalBill-([A-Za-z]+)\.(\d{4})` matched at the start of `s`: the month name and the year digits. */
  function MatchHere(s: string): (r: Option<(string, string)>)
    ensures r.Some? ==> |r.value.0| >= 1 && |r.value.1| == 4 && AllDigits(r.value.1)
  {
    if !StartsWith(s, FilePrefix) then None
    else
      var rest := s[|FilePrefix|..];
      var letters := LetterRun(rest);
      var after := rest[|letters|..];
      if |letters| >= 1 && |after| >= 5 && after[0] == '.' && AllDigits(after[1..5]) then Some((letters, after[1..5]))
      else None
  }

  /** `regex.firstMatch(in:)`: the leftmost position where the pattern matches. */
  function FirstMatch(s: string): (r: Option<(string, string)>)
    ensures r.Some? ==> |r.value.0| >= 1 && |r.value.1| == 4 && AllDigits(r.value.1)
    decreases |s|
  {
    if MatchHere(s).Some? then MatchHere(s)
    else if s == [] then None
    else FirstMatch(s[1..])
  }

  lemma {:induction false} LetterRunStops(letters: string, c: char, t: string)
    requires forall i :: 0 <= i < |letters| ==> IsAsciiLetter(letters[i])
    requires !IsAsciiLetter(c)
    ensures LetterRun(letters + [c] + t) == letters
    decreases |letters|
  {
    if letters != [] {
      assert (letters + [c] + t)[1..] == letters[1..] + [c] + t;
      LetterRunStops(letters[1..], c, t);
    }
  }

  /** A name that starts with the pattern yields its month name and year digits. */
  lemma FileNameRoundTrip(monthName: string, year: string, rest: string)
    requires |monthName| >= 1 && forall i :: 0 <= i < |monthName| ==> IsAsciiLetter(monthName[i])
    requires |year| == 4 && AllDigits(year)
    ensures FirstMatch(FilePrefix + monthName + "." + year + rest) == Some((monthName, year))
  {
    var s := FilePrefix + monthName + "." + year + rest;
    assert s[..|FilePrefix|] == FilePrefix;
    assert s[|FilePrefix|..] == monthName + ['.'] + (year + rest);
    LetterRunStops(monthName, '.', year + rest);
    var after := s[|FilePrefix|..][|monthName|..];
    assert after == ['.'] + year + rest;
    assert after[1..5] == year;
  }

  /**
   * The year and month the file name fixes: the year from the four digits, the
   * month from the month name when the "MMM" formatter reads it.
   */
  function FileOverrides(filename: string, cal: Calendar, parsers: Parsers): (Option<int>, Option<int>) {
    match FirstMatch(filename)
    case None => (None, None)
    case Some((monthStr, yearStr)) =>
      (Some(DigitsValue(yearStr) as int),
       match parsers.monthName(monthStr)
       case Some(d) => Some(cal.Month(d))
       case None => None)
  }

  // ---------------------------------------------------------------------------
  // The screen's state

  class BillViewState {
    var selectedYear: int
    var selectedMonth: int
    var selection: set<Id>
    var editMode: EditMode

    /** The screen opens on the current year and month, nothing selected, not editing. */
    constructor (cal: Calendar, now: Date)
      ensures selectedYear == cal.Year(now) && selectedMonth == cal.Month(now)
      ensures selection == {} && editMode == Inactive
    {
      selectedYear := cal.Year(now);
      selectedMonth := cal.Month(now);
      selection := {};
      editMode := Inactive;
    }

    /**
     * The "全选" button over the rows shown for the selected month, as written:
     * it compares only the selection's size with the number of rows shown.
     */
    method ToggleSelectAll(bills: seq<BillItem>, cal: Calendar)
      modifies this`selection
      ensures selection == SelectAll(old(selection), IdList(Monthly(bills, cal, selectedYear, selectedMonth)))
    {
      var monthly := Monthly(bills, cal, selectedYear, selectedMonth);
      selection := if |selection| == |monthly| then {} else IdsOf(monthly);
      IdsOfIsIdList(monthly);
    }

    /**
     * The same button with the corrected test (every shown row already
     * selected) in place of the size comparison.
     */
    method ToggleSelectAllIntended(bills: seq<BillItem>, cal: Calendar)
      modifies this`selection
      ensures selection == SelectAllIntended(old(selection), IdList(Monthly(bills, cal, selectedYear, selectedMonth)))
    {
      var monthly := Monthly(bills, cal, selectedYear, selectedMonth);
      selection := if IdsOf(monthly) <= selection then {} else IdsOf(monthly);
      IdsOfIsIdList(monthly);
    }

    /** The "完成" button: leave edit mode and clear the selection. */
    method Done()
      modifies this`selection, this`editMode
      ensures selection == {} && editMode == Inactive
    {
      editMode := Inactive;
      selection := {};
    }

    /**
     * `deleteSelectedItems()`: deletes every stored bill whose id is selected,
     * one by one, keeps the rest in order, then clears the selection and leaves
     * edit mode.
     */
    method DeleteSelectedItems(store: Store)
      requires store.Valid()
      modifies store`bills, this`selection, this`editMode
      ensures store.Valid()
      ensures store.bills == Unselected(old(store.bills), old(selection))
      ensures selection == {} && editMode == Inactive
    {
      var itemsToDelete := Selected(store.bills, selection);
      WithoutSelection(store.bills, itemsToDelete, selection);
      DeleteBills(store, itemsToDelete);
      selection := {};
      editMode := Inactive;
    }

    /**
     * `importCSV(from:)`: when the file is accessible and readable, inserts one
     * new bill per parsed row after the existing ones, and moves the screen to
     * the file's period when the name fixed both year and month.
     * `contents` is the file's text, or None when it cannot be read.
     */
    method ImportCSV(store: Store, cal: Calendar, parsers: Parsers, filename: string, accessGranted: bool, contents: Option<string>)
      requires store.Valid()
      modifies store`bills, store`nextId, this`selectedYear, this`selectedMonth
      ensures store.Valid()
      ensures !accessGranted || contents.None? ==>
        store.bills == old(store.bills) && selectedYear == old(selectedYear) && selectedMonth == old(selectedMonth)
      ensures accessGranted && contents.Some? ==>
        var fy := FileOverrides(filename, cal, parsers).0;
        var fm := FileOverrides(filename, cal, parsers).1;
        && Appended(old(store.bills), store.bills, ParsedCSV(contents.value, fy, fm, cal, parsers))
        && (forall k :: |old(store.bills)| <= k < |store.bills| ==> fresh(store.bills[k]))
        && (if fy.Some? && fm.Some? then selectedYear == fy.value && selectedMonth == fm.value
            else selectedYear == old(selectedYear) && selectedMonth == old(selectedMonth))
    {
      if !accessGranted {
        return;
      }
      var overrides := FileOverrides(filename, cal, parsers);
      var overrideYear, overrideMonth := overrides.0, overrides.1;
      if contents.Some? {
        var records := ParseCSV(contents.value, overrideYear, overrideMonth, cal, parsers);
        InsertRecords(store, records);
        if overrideYear.Some? && overrideMonth.Some? {
          selectedYear := overrideYear.value;
          selectedMonth := overrideMonth.value;
        }
      }
    }
  }

  /** The deletion loop of `deleteSelectedItems()`: `context.delete` on each item in turn. */
  method DeleteBills(store: Store, items: seq<BillItem>)
    requires store.Valid()
    modifies store`bills
    ensures store.Valid()
    ensures store.bills == Without(old(store.bills), items)
  {
    ghost var before := store.bills;
    WithoutNothing(before);
    var i := 0;
    while i < |items|
      invariant 0 <= i <= |items|
      invariant store.Valid()
      invariant store.bills == Without(before, items[..i])
    {
      store.DeleteBill(items[i]);
      WithoutBillStep(before, items[..i], items[i]);
      assert items[..i + 1] == items[..i] + [items[i]];
      i := i + 1;
    }
    assert items[..i] == items;
  }
}
