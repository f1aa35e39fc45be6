/**
 * The row loop of the revenue import and the batch that audits it.
 *
 * Each parsed row becomes a revenue record or one error message (or nothing at
 * all when date or revenue is unmapped). What the JavaScript host computes and
 * the model does not define is a `Host` value: `new Date(...)` followed by
 * `toISOString()`, `String(n)` for a number, and `parseInt`/`parseFloat` on the
 * text of an optional metric cell. The date fallback and the cleaning and
 * parsing of a revenue string are modelled exactly.
 */
module ImportRows {
  import opened Collections
  import opened Text
  import opened Types
  import opened RevenueImport

  /**
   * The host's behaviour: `dateOfString(s)` and `dateOfNumber(n)` are the ISO
   * text of `new Date(s)` and `new Date(n)`, or None for an invalid date;
   * `numberText(n)` is `String(n)`; `parseIntText` and `parseFloatText` are
   * `parseInt` and `parseFloat`.
   */
  datatype Host = Host(
    dateOfString: string -> Option<string>,
    dateOfNumber: real -> Option<string>,
    numberText: real -> string,
    parseIntText: string -> Number,
    parseFloatText: string -> Number)

  /** JavaScript falsiness of a cell: undefined, null, the empty string and 0. */
  predicate Falsy(c: Cell)
  {
    c == Undefined || c == Null || c == Str("") || c == Num(0.0)
  }

  /** The cell as a template literal or `String(...)` renders it. */
  function CellText(host: Host, c: Cell): string
  {
    match c
    case Str(s) => s
    case Num(v) => host.numberText(v)
    case Null => "null"
    case Undefined => "undefined"
  }

  // ---------------------------------------------------------------------------
  // Dates
  // ---------------------------------------------------------------------------

  /** The separators of the day/month/year fallback: `/`, `-` and `.`. */
  const DateSeparators: set<char> := {'/', '-', '.'}

  /**
   * The fallback for a date string the host rejects: split on the separators
   * and, only when there are exactly three parts, reassemble them in reverse
   * order joined by `-`.
   */
  function DateFallback(s: string): Option<string>
  {
    var parts := Split(s, DateSeparators);
    if |parts| == 3 then Some(parts[2] + "-" + parts[1] + "-" + parts[0]) else None
  }

  /** A day, a month and a year joined by one separator come back as year-month-day. */
  lemma DateFallbackReassembles(d: string, m: string, y: string, c: char)
    requires c in DateSeparators
    requires Free(d, DateSeparators) && Free(m, DateSeparators) && Free(y, DateSeparators)
    ensures DateFallback(d + [c] + m + [c] + y) == Some(y + "-" + m + "-" + d)
  {
    var parts := [d, m, y];
    assert Join(parts[1..], [c]) == m + [c] + y by {
      assert parts[1..] == [m, y];
      assert parts[1..][1..] == [y];
    }
    assert Join(parts, [c]) == d + [c] + m + [c] + y;
    SplitJoin(parts, c, DateSeparators);
  }

  /** The fallback applies exactly when the string holds two separators. */
  lemma DateFallbackNeedsTwoSeparators(s: string)
    ensures DateFallback(s).Some? <==> CountIn(s, DateSeparators) == 2
  {
    SplitCount(s, DateSeparators);
  }

  /** The date of a text cell: the host's reading, else the host's reading of the fallback. */
  function DateOfText(host: Host, s: string): (r: Option<string>)
    ensures host.dateOfString(s).Some? ==> r == host.dateOfString(s)
    ensures host.dateOfString(s).None? && DateFallback(s).None? ==> r.None?
    ensures host.dateOfString(s).None? && DateFallback(s).Some? ==> r == host.dateOfString(DateFallback(s).value)
  {
    match host.dateOfString(s)
    case Some(iso) => Some(iso)
    case None =>
      match DateFallback(s)
      case Some(t) => host.dateOfString(t)
      case None => None
  }

  /** The date of a non-empty cell: text goes through the fallback, a number straight to the host. */
  function DateOfCell(host: Host, c: Cell): Option<string>
    requires !Falsy(c)
  {
    match c
    case Str(s) => DateOfText(host, s)
    case Num(v) => host.dateOfNumber(v)
    case _ => None
  }

  /** `toISOString().split('T')[0]`: the date part of an ISO timestamp. */
  function StoredDate(iso: string): string
  {
    Split(iso, {'T'})[0]
  }

  /** The stored date of `day + "T" + time` is `day`. */
  lemma StoredDateOfTimestamp(day: string, time: string)
    requires Free(day, {'T'})
    ensures StoredDate(day + "T" + time) == day
  {
    assert day + "T" + time == day + ("T" + time);
    SplitFreePrefix(day, "T" + time, {'T'});
    assert ("T" + time)[0] == 'T';
    assert Split("T" + time, {'T'})[0] == [];
    assert day + [] == day;
  }

  // ---------------------------------------------------------------------------
  // Revenue text
  // ---------------------------------------------------------------------------

  /** The characters `/[^0-9.,]/g` does not remove. */
  predicate KeptInRevenue(c: char)
  {
    IsDigit(c) || c == '.' || c == ','
  }

  /** The position of the first `c` in `s`, or -1 when `s` has none. */
  function IndexOfChar(s: string, c: char): (k: int)
    ensures -1 <= k < |s|
    ensures k == -1 <==> c !in s
    ensures k >= 0 ==> s[k] == c && forall j :: 0 <= j < k ==> s[j] != c
  {
    if s == [] then -1
    else if s[0] == c then 0
    else
      var k := IndexOfChar(s[1..], c);
      if k < 0 then -1 else k + 1
  }

  /** `String.prototype.replace` with a one-character string: only the first occurrence is replaced. */
  function ReplaceFirst(s: string, from: char, to: char): (r: string)
    ensures |r| == |s|
    ensures forall i :: 0 <= i < |s| ==> r[i] == if i == IndexOfChar(s, from) then to else s[i]
  {
    if s == [] then []
    else if s[0] == from then [to] + s[1..]
    else [s[0]] + ReplaceFirst(s[1..], from, to)
  }

  /**
   * `s.replace(/[^0-9.,]/g, '').replace(',', '.')`: only digits, points and
   * commas are kept, and then only the first comma becomes a point.
   */
  function CleanRevenueText(s: string): (r: string)
    ensures forall i :: 0 <= i < |r| ==> KeptInRevenue(r[i])
    ensures '-' !in r
  {
    var kept := Filter(s, KeptInRevenue);
    var r := ReplaceFirst(kept, ',', '.');
    assert forall i :: 0 <= i < |r| ==> r[i] == '.' || r[i] == kept[i];
    r
  }

  /** Text already made of digits and points comes out of the cleaning unchanged. */
  lemma CleanRevenueKeepsPlainDecimal(s: string)
    requires forall i :: 0 <= i < |s| ==> IsDigit(s[i]) || s[i] == '.'
    ensures CleanRevenueText(s) == s
  {
    FilterAll(s, KeptInRevenue);
  }

  /** The length of the run of digits that starts `s`. */
  function LeadingDigits(s: string): (n: nat)
    ensures n <= |s|
    ensures forall i :: 0 <= i < n ==> IsDigit(s[i])
    ensures n < |s| ==> !IsDigit(s[n])
  {
    if s == [] || !IsDigit(s[0]) then 0 else 1 + LeadingDigits(s[1..])
  }

  lemma {:induction false} LeadingDigitsOf(d: string, t: string)
    requires forall i :: 0 <= i < |d| ==> IsDigit(d[i])
    requires t == [] || !IsDigit(t[0])
    ensures LeadingDigits(d + t) == |d|
  {
    if d != [] {
      assert (d + t)[1..] == d[1..] + t;
      LeadingDigitsOf(d[1..], t);
    } else {
      assert d + t == t;
    }
  }

  /** The value of the digits after a decimal point: `0.f`. */
  function FractionValue(f: string): (v: real)
    requires forall i :: 0 <= i < |f| ==> IsDigit(f[i])
    ensures 0.0 <= v < 1.0
  {
    if f == [] then 0.0 else (DigitValue(f[0]) as real + FractionValue(f[1..])) / 10.0
  }

  /** The text starts with a decimal literal: a digit, or a point and a digit. */
  predicate StartsDecimal(s: string)
  {
    (|s| > 0 && IsDigit(s[0])) || (|s| > 1 && s[0] == '.' && IsDigit(s[1]))
  }

  /**
   * `parseFloat` on text of digits, points and commas: the value of the longest
   * prefix of the form `digits[.digits]` or `.digits`, NaN when there is none.
   */
  function ParseDecimal(s: string): (r: Number)
    ensures r.Finite? <==> StartsDecimal(s)
    ensures r.Finite? ==> r.value >= 0.0
  {
    var a := LeadingDigits(s);
    var whole := DigitsValue(s[..a]) as real;
    if a < |s| && s[a] == '.' then
      var frac := s[a + 1..];
      var b := LeadingDigits(frac);
      if a == 0 && b == 0 then NaN
      else Finite(whole + FractionValue(frac[..b]))
    else if a == 0 then NaN
    else Finite(whole)
  }

  /** A natural number's digits, followed by anything but a digit or a point, read back as that number. */
  lemma ParseDecimalWhole(n: nat, t: string)
    requires t == [] || (!IsDigit(t[0]) && t[0] != '.')
    ensures ParseDecimal(NatToString(n) + t) == Finite(n as real)
  {
    var d := NatToString(n);
    LeadingDigitsOf(d, t);
    assert (d + t)[..|d|] == d;
    NatToStringRoundTrip(n);
  }

  /** `n.f`, where `f` is a run of digits that ends the literal, reads back as `n + 0.f`. */
  lemma ParseDecimalFraction(n: nat, f: string, t: string)
    requires forall i :: 0 <= i < |f| ==> IsDigit(f[i])
    requires t == [] || !IsDigit(t[0])
    ensures ParseDecimal(NatToString(n) + "." + f + t) == Finite(n as real + FractionValue(f))
  {
    NatToStringRoundTrip(n);
    ParseDigitsPointDigits(NatToString(n), f, t);
  }

  lemma ParseDigitsPointDigits(d: string, f: string, t: string)
    requires |d| > 0 && forall i :: 0 <= i < |d| ==> IsDigit(d[i])
    requires forall i :: 0 <= i < |f| ==> IsDigit(f[i])
    requires t == [] || !IsDigit(t[0])
    ensures ParseDecimal(d + "." + f + t) == Finite(DigitsValue(d) as real + FractionValue(f))
  {
    var s := d + "." + f + t;
    WholePart(d, f, t);
    FractionPart(d, f, t);
    ParseDecimalPoint(s, |d|, |f|);
  }

  lemma WholePart(d: string, f: string, t: string)
    requires forall i :: 0 <= i < |d| ==> IsDigit(d[i])
    ensures LeadingDigits(d + "." + f + t) == |d|
    ensures (d + "." + f + t)[..|d|] == d && (d + "." + f + t)[|d|] == '.'
  {
    var rest := "." + f + t;
    assert d + "." + f + t == d + rest;
    LeadingDigitsOf(d, rest);
    TakeConcat(d, rest);
  }

  lemma FractionPart(d: string, f: string, t: string)
    requires forall i :: 0 <= i < |f| ==> IsDigit(f[i])
    requires t == [] || !IsDigit(t[0])
    ensures LeadingDigits((d + "." + f + t)[|d| + 1..]) == |f|
    ensures (d + "." + f + t)[|d| + 1..][..|f|] == f
  {
    SkipPoint(d, f, t);
    LeadingDigitsOf(f, t);
    TakeConcat(f, t);
  }

  lemma SkipPoint(d: string, f: string, t: string)
    ensures (d + "." + f + t)[|d| + 1..] == f + t
  {
    var s := d + "." + f + t;
    assert |s| == |d| + 1 + |f| + |t|;
    forall i | 0 <= i < |f| + |t| ensures s[|d| + 1 + i] == (f + t)[i] {
      if i < |f| {
        assert s[|d| + 1 + i] == f[i];
      } else {
        assert s[|d| + 1 + i] == t[i - |f|];
      }
    }
  }

  lemma TakeConcat(a: string, b: string)
    ensures (a + b)[..|a|] == a
  {
  }

  /** Unfolds the reading of `digits.digits...` once. */
  lemma ParseDecimalPoint(s: string, a: nat, b: nat)
    requires 0 < a < |s| && LeadingDigits(s) == a && s[a] == '.'
    requires LeadingDigits(s[a + 1..]) == b
    ensures ParseDecimal(s) ==
            Finite(DigitsValue(s[..a]) as real + FractionValue(s[a + 1..][..b]))
  {
  }

  /** The revenue of a non-empty cell: text is cleaned, then read; a number passes through. */
  function RevenueOfCell(c: Cell): (r: Number)
    requires !Falsy(c)
    ensures c.Num? ==> r == Finite(c.v)
    ensures c.Str? && r.Finite? ==> r.value >= 0.0
  {
    match c
    case Str(s) => ParseDecimal(CleanRevenueText(s))
    case Num(v) => Finite(v)
    case _ => NaN
  }

  /** A decimal comma is read as a point: `n,f` is `n + 0.f`. */
  lemma RevenueWithDecimalComma(n: nat, f: string)
    requires forall i :: 0 <= i < |f| ==> IsDigit(f[i])
    ensures RevenueOfCell(Str(NatToString(n) + "," + f)) == Finite(n as real + FractionValue(f))
  {
    var d := NatToString(n);
    CleanDecimalComma(d, f);
    assert d + "." + f + [] == d + "." + f;
    ParseDecimalFraction(n, f, []);
  }

  /** Digits, a comma and digits are cleaned into digits, a point and digits. */
  lemma CleanDecimalComma(d: string, f: string)
    requires forall i :: 0 <= i < |d| ==> IsDigit(d[i])
    requires forall i :: 0 <= i < |f| ==> IsDigit(f[i])
    ensures CleanRevenueText(d + "," + f) == d + "." + f
  {
    var s := d + "," + f;
    CommaTextKept(d, f);
    FilterAll(s, KeptInRevenue);
    FirstComma(d, f);
    ReplaceFirstAt(s, ',', '.', |d|);
    CommaPieces(d, f);
  }

  lemma CommaTextKept(d: string, f: string)
    requires forall i :: 0 <= i < |d| ==> IsDigit(d[i])
    requires forall i :: 0 <= i < |f| ==> IsDigit(f[i])
    ensures forall i :: 0 <= i < |d + "," + f| ==> KeptInRevenue((d + "," + f)[i])
  {
    var s := d + "," + f;
    forall i | 0 <= i < |s| ensures KeptInRevenue(s[i]) {
      if i < |d| { assert s[i] == d[i]; } else if i > |d| { assert s[i] == f[i - |d| - 1]; }
    }
  }

  lemma CommaPieces(d: string, f: string)
    ensures (d + "," + f)[..|d|] + "." + (d + "," + f)[|d| + 1..] == d + "." + f
  {
    var s := d + "," + f;
    assert s[..|d|] == d;
    assert s[|d| + 1..] == f;
  }

  /** Replacing the first occurrence, when it is at `k`, replaces position `k` only. */
  lemma ReplaceFirstAt(s: string, from: char, to: char, k: nat)
    requires IndexOfChar(s, from) == k
    ensures ReplaceFirst(s, from, to) == s[..k] + [to] + s[k + 1..]
  {
    var r := ReplaceFirst(s, from, to);
    var e := s[..k] + [to] + s[k + 1..];
    assert |r| == |e|;
    forall i | 0 <= i < |r| ensures r[i] == e[i] {
      if i < k { assert e[i] == s[i]; } else if i > k { assert e[i] == s[i]; }
    }
  }

  lemma FirstComma(d: string, f: string)
    requires forall i :: 0 <= i < |d| ==> IsDigit(d[i])
    ensures IndexOfChar(d + "," + f, ',') == |d|
  {
    var s := d + "," + f;
    assert s[|d|] == ',';
    assert forall j :: 0 <= j < |d| ==> s[j] == d[j];
  }

  /** A minus sign is dropped by the cleaning: `-n` is read as `n`. */
  lemma RevenueDropsMinus(n: nat)
    ensures RevenueOfCell(Str("-" + NatToString(n))) == Finite(n as real)
  {
    var d := NatToString(n);
    CleanDropsMinus(d);
    ParseDecimalWhole(n, []);
    assert d + [] == d;
  }

  lemma CleanDropsMinus(d: string)
    requires forall i :: 0 <= i < |d| ==> IsDigit(d[i])
    ensures CleanRevenueText("-" + d) == d
  {
    FilterConcat("-", d, KeptInRevenue);
    FilterNone("-", KeptInRevenue);
    assert Filter("-" + d, KeptInRevenue) == Filter(d, KeptInRevenue);
    CleanRevenueKeepsPlainDecimal(d);
  }

  // ---------------------------------------------------------------------------
  // One row
  // ---------------------------------------------------------------------------

  /** What the loop needs besides the rows: the platform, the mappings, the host and `Date.now()` per row. */
  datatype ImportContext = ImportContext(
    platform: Platform,
    mappings: seq<ColumnMapping>,
    host: Host,
    clock: nat -> int)

  /** A row's fate: a record, an error message, or nothing when date or revenue is unmapped. */
  datatype Outcome = Imported(record: RevenueRecord) | Rejected(message: string) | Skipped

  /** `Ligne ${i + 1}: `, the start of the message about the row at index `i`. */
  function LinePrefix(i: nat): string
  {
    "Ligne " + NatToString(i + 1) + ": "
  }

  /** The cell of the row in the column mapped onto `f`. */
  function MappedCell(ms: seq<ColumnMapping>, row: Row, f: Field): Cell
    requires FindByField(ms, f).Some?
  {
    CellAt(row, FindByField(ms, f).value.csvColumn)
  }

  /** `String(cell) || '0'`. */
  function MetricText(host: Host, c: Cell): string
  {
    var t := CellText(host, c);
    if t == "" then "0" else t
  }

  /** An optional metric: the parse of its cell's text when the field is mapped, else absent. */
  function Metric(ctx: ImportContext, row: Row, f: Field, parse: string -> Number): (r: Option<Number>)
    ensures r.Some? <==> Mapped(ctx.mappings, f)
  {
    match FindByField(ctx.mappings, f)
    case None => None
    case Some(m) => Some(parse(MetricText(ctx.host, CellAt(row, m.csvColumn))))
  }

  /** The record built from a row whose date and revenue were both read. */
  function RecordOf(ctx: ImportContext, i: nat, row: Row, iso: string, revenue: real): RevenueRecord
  {
    RevenueRecord(
      ctx.clock(i) + i, ctx.platform, StoredDate(iso), revenue, "EUR",
      Metric(ctx, row, ImpressionsField, ctx.host.parseIntText),
      Metric(ctx, row, ClicksField, ctx.host.parseIntText),
      Metric(ctx, row, CtrField, ctx.host.parseFloatText),
      Metric(ctx, row, CpmField, ctx.host.parseFloatText),
      Metric(ctx, row, EstimatedEarningsField, ctx.host.parseFloatText),
      Csv)
  }

  /** A record of this import: currency EUR, source csv, an optional metric exactly when mapped. */
  ghost predicate WellFormed(ctx: ImportContext, i: nat, r: RevenueRecord)
  {
    && r.id == ctx.clock(i) + i
    && r.platform == ctx.platform
    && r.currency == "EUR"
    && r.source == Csv
    && (r.impressions.Some? <==> Mapped(ctx.mappings, ImpressionsField))
    && (r.clicks.Some? <==> Mapped(ctx.mappings, ClicksField))
    && (r.ctr.Some? <==> Mapped(ctx.mappings, CtrField))
    && (r.cpm.Some? <==> Mapped(ctx.mappings, CpmField))
    && (r.estimatedEarnings.Some? <==> Mapped(ctx.mappings, EstimatedEarningsField))
  }

  /**
   * The body of the loop for row `i`. Without both required mappings the row is
   * skipped; otherwise a missing date or revenue, an unreadable date and an
   * unreadable revenue are each rejected with their own message, in that order
   * of precedence, and every other row becomes a record.
   */
  function RowOutcome(ctx: ImportContext, i: nat, row: Row): Outcome
  {
    if !Ready(ctx.mappings) then Skipped
    else
      var dateCell := MappedCell(ctx.mappings, row, DateField);
      var revenueCell := MappedCell(ctx.mappings, row, RevenueField);
      if Falsy(dateCell) || Falsy(revenueCell) then
        Rejected(LinePrefix(i) + "Date ou revenu manquant")
      else
        match DateOfCell(ctx.host, dateCell)
        case None =>
          Rejected(LinePrefix(i) + "Format de date invalide (" + CellText(ctx.host, dateCell) + ")")
        case Some(iso) =>
          match RevenueOfCell(revenueCell)
          case NaN =>
            Rejected(LinePrefix(i) + "Revenu invalide (" + CellText(ctx.host, revenueCell) + ")")
          case Finite(v) =>
            Imported(RecordOf(ctx, i, row, iso, v))
  }

  /**
   * Which of the four outcomes a row gets: skipped exactly when a required
   * mapping is missing; a record exactly when both cells are present and both
   * read, built as `WellFormed` says; otherwise a message about that row.
   */
  lemma RowOutcomeCases(ctx: ImportContext, i: nat, row: Row)
    ensures RowOutcome(ctx, i, row).Skipped? <==> !Ready(ctx.mappings)
    ensures RowOutcome(ctx, i, row).Rejected? ==> LinePrefix(i) <= RowOutcome(ctx, i, row).message
    ensures Ready(ctx.mappings) &&
            (Falsy(MappedCell(ctx.mappings, row, DateField)) || Falsy(MappedCell(ctx.mappings, row, RevenueField))) ==>
              RowOutcome(ctx, i, row) == Rejected(LinePrefix(i) + "Date ou revenu manquant")
    ensures RowOutcome(ctx, i, row).Imported? <==>
              && Ready(ctx.mappings)
              && !Falsy(MappedCell(ctx.mappings, row, DateField))
              && !Falsy(MappedCell(ctx.mappings, row, RevenueField))
              && DateOfCell(ctx.host, MappedCell(ctx.mappings, row, DateField)).Some?
              && RevenueOfCell(MappedCell(ctx.mappings, row, RevenueField)).Finite?
    ensures RowOutcome(ctx, i, row).Imported? ==>
              && WellFormed(ctx, i, RowOutcome(ctx, i, row).record)
              && RowOutcome(ctx, i, row).record.date == StoredDate(DateOfCell(ctx.host, MappedCell(ctx.mappings, row, DateField)).value)
              && Finite(RowOutcome(ctx, i, row).record.revenue) == RevenueOfCell(MappedCell(ctx.mappings, row, RevenueField))
  {
  }

  // ---------------------------------------------------------------------------
  // All rows
  // ---------------------------------------------------------------------------

  /** The body of the loop as a function value. */
  function RowStep(ctx: ImportContext): (nat, Row) -> Outcome
  {
    (i: nat, row: Row) => RowOutcome(ctx, i, row)
  }

  /** The outcome that `step` gives every row, in row order. */
  function OutcomesBy(rows: seq<Row>, step: (nat, Row) -> Outcome): (os: seq<Outcome>)
    ensures |os| == |rows|
    ensures forall i :: 0 <= i < |rows| ==> os[i] == step(i, rows[i])
  {
    if rows == [] then []
    else OutcomesBy(rows[..|rows| - 1], step) + [step(|rows| - 1, rows[|rows| - 1])]
  }

  /** The outcome of every row, in row order. */
  function Outcomes(ctx: ImportContext, rows: seq<Row>): (os: seq<Outcome>)
    ensures |os| == |rows|
    ensures forall i :: 0 <= i < |rows| ==> os[i] == RowOutcome(ctx, i, rows[i])
  {
    OutcomesBy(rows, RowStep(ctx))
  }

  /** The records among the outcomes, in order. */
  function RecordsOf(os: seq<Outcome>): seq<RevenueRecord>
  {
    if os == [] then []
    else RecordsOf(os[..|os| - 1]) + (if os[|os| - 1].Imported? then [os[|os| - 1].record] else [])
  }

  /** The error messages among the outcomes, in order. */
  function ErrorsOf(os: seq<Outcome>): seq<string>
  {
    if os == [] then []
    else ErrorsOf(os[..|os| - 1]) + (if os[|os| - 1].Rejected? then [os[|os| - 1].message] else [])
  }

  /** The positions of the imported rows: increasing, and the `k`-th record comes from the `k`-th of them. */
  function ImportedRows(os: seq<Outcome>): (ix: seq<nat>)
    ensures |ix| == |RecordsOf(os)|
    ensures forall k :: 0 <= k < |ix| ==> ix[k] < |os| && os[ix[k]] == Imported(RecordsOf(os)[k])
    ensures forall k, l :: 0 <= k < l < |ix| ==> ix[k] < ix[l]
    ensures forall i :: 0 <= i < |os| && os[i].Imported? ==> i in ix
  {
    if os == [] then []
    else
      var init := os[..|os| - 1];
      var rest := ImportedRows(init);
      assert forall i :: 0 <= i < |init| ==> os[i] == init[i];
      assert RecordsOf(os) == RecordsOf(init) + (if os[|os| - 1].Imported? then [os[|os| - 1].record] else []);
      if os[|os| - 1].Imported? then rest + [|os| - 1] else rest
  }

  /** The positions of the rejected rows: increasing, and the `k`-th message comes from the `k`-th of them. */
  function RejectedRows(os: seq<Outcome>): (ix: seq<nat>)
    ensures |ix| == |ErrorsOf(os)|
    ensures forall k :: 0 <= k < |ix| ==> ix[k] < |os| && os[ix[k]] == Rejected(ErrorsOf(os)[k])
    ensures forall k, l :: 0 <= k < l < |ix| ==> ix[k] < ix[l]
    ensures forall i :: 0 <= i < |os| && os[i].Rejected? ==> i in ix
  {
    if os == [] then []
    else
      var init := os[..|os| - 1];
      var rest := RejectedRows(init);
      assert forall i :: 0 <= i < |init| ==> os[i] == init[i];
      assert ErrorsOf(os) == ErrorsOf(init) + (if os[|os| - 1].Rejected? then [os[|os| - 1].message] else []);
      if os[|os| - 1].Rejected? then rest + [|os| - 1] else rest
  }

  /** No outcome is lost or doubled: records, errors and skipped rows add up to the rows. */
  lemma {:induction false} OutcomeCount(os: seq<Outcome>)
    ensures (forall i :: 0 <= i < |os| ==> !os[i].Skipped?) ==> |RecordsOf(os)| + |ErrorsOf(os)| == |os|
    ensures (forall i :: 0 <= i < |os| ==> os[i].Skipped?) ==> RecordsOf(os) == [] && ErrorsOf(os) == []
  {
    if os != [] {
      OutcomeCount(os[..|os| - 1]);
    }
  }

  /**
   * With date and revenue mapped, every row yields exactly one record or one
   * error; without them the import yields neither.
   */
  lemma RowsPartitioned(ctx: ImportContext, rows: seq<Row>)
    ensures Ready(ctx.mappings) ==>
              |RecordsOf(Outcomes(ctx, rows))| + |ErrorsOf(Outcomes(ctx, rows))| == |rows|
    ensures !Ready(ctx.mappings) ==> RecordsOf(Outcomes(ctx, rows)) == [] && ErrorsOf(Outcomes(ctx, rows)) == []
  {
    var os := Outcomes(ctx, rows);
    if Ready(ctx.mappings) {
      forall i | 0 <= i < |os| ensures !os[i].Skipped? {
        RowSkipped(ctx, i, rows[i]);
      }
    } else {
      forall i | 0 <= i < |os| ensures os[i].Skipped? {
        RowSkipped(ctx, i, rows[i]);
      }
    }
    OutcomeCount(os);
  }

  lemma RowSkipped(ctx: ImportContext, i: nat, row: Row)
    ensures RowOutcome(ctx, i, row).Skipped? <==> !Ready(ctx.mappings)
  {
  }

  /** The `k`-th error message starts with `Ligne n: `, `n` the 1-based number of its row, and rows increase. */
  lemma ErrorsNumbered(ctx: ImportContext, rows: seq<Row>)
    ensures forall k :: 0 <= k < |ErrorsOf(Outcomes(ctx, rows))| ==>
              LinePrefix(RejectedRows(Outcomes(ctx, rows))[k]) <= ErrorsOf(Outcomes(ctx, rows))[k]
  {
    var os := Outcomes(ctx, rows);
    var ix := RejectedRows(os);
    forall k | 0 <= k < |ErrorsOf(os)| ensures LinePrefix(ix[k]) <= ErrorsOf(os)[k] {
      assert os[ix[k]] == RowOutcome(ctx, ix[k], rows[ix[k]]);
      RowOutcomeCases(ctx, ix[k], rows[ix[k]]);
    }
  }

  /** Every record carries the import's platform, EUR, source csv and exactly the mapped metrics. */
  lemma RecordsWellFormed(ctx: ImportContext, rows: seq<Row>)
    ensures forall k :: 0 <= k < |RecordsOf(Outcomes(ctx, rows))| ==>
              WellFormed(ctx, ImportedRows(Outcomes(ctx, rows))[k], RecordsOf(Outcomes(ctx, rows))[k])
  {
    var os := Outcomes(ctx, rows);
    var ix := ImportedRows(os);
    forall k | 0 <= k < |RecordsOf(os)| ensures WellFormed(ctx, ix[k], RecordsOf(os)[k]) {
      assert os[ix[k]] == RowOutcome(ctx, ix[k], rows[ix[k]]);
      RowOutcomeCases(ctx, ix[k], rows[ix[k]]);
    }
  }

  /** While `Date.now()` does not go backwards, the ids `Date.now() + i` of one import strictly increase. */
  lemma RecordIdsIncrease(ctx: ImportContext, rows: seq<Row>)
    requires forall i: nat, j: nat :: i <= j ==> ctx.clock(i) <= ctx.clock(j)
    ensures forall k, l :: 0 <= k < l < |RecordsOf(Outcomes(ctx, rows))| ==>
              RecordsOf(Outcomes(ctx, rows))[k].id < RecordsOf(Outcomes(ctx, rows))[l].id
  {
    RecordsWellFormed(ctx, rows);
  }

  /** The `for` loop over the rows: pushes each row's record or message. */
  method Normalize(ctx: ImportContext, rows: seq<Row>) returns (records: seq<RevenueRecord>, errors: seq<string>)
    ensures records == RecordsOf(Outcomes(ctx, rows))
    ensures errors == ErrorsOf(Outcomes(ctx, rows))
  {
    records, errors := NormalizeBy(rows, RowStep(ctx));
  }

  /** The loop with its body given as `step`. */
  method NormalizeBy(rows: seq<Row>, step: (nat, Row) -> Outcome) returns (records: seq<RevenueRecord>, errors: seq<string>)
    ensures records == RecordsOf(OutcomesBy(rows, step))
    ensures errors == ErrorsOf(OutcomesBy(rows, step))
  {
    records, errors := [], [];
    var i := 0;
    while i < |rows|
      invariant 0 <= i <= |rows|
      invariant records == RecordsOf(OutcomesBy(rows[..i], step))
      invariant errors == ErrorsOf(OutcomesBy(rows[..i], step))
    {
      assert rows[..i + 1][..i] == rows[..i];
      var outcome := step(i, rows[i]);
      match outcome {
        case Imported(r) =>
          records := records + [r];
        case Rejected(message) =>
          errors := errors + [message];
        case Skipped =>
      }
      i := i + 1;
    }
    assert rows[..i] == rows;
  }

  // ---------------------------------------------------------------------------
  // The batch
  // ---------------------------------------------------------------------------

  /** The batch recorded before the loop: `batch_${Date.now()}`, status processing, nothing imported yet. */
  function ProcessingBatch(platform: Platform, fileName: string, rowCount: nat, now: nat, createdAt: string): (b: ImportBatch)
    ensures b.status == Processing && b.importedCount == 0
    ensures b.fileType == CsvFile <==> EndsWith(fileName, ".csv")
    ensures b.completedAt.None? && b.errors.None?
  {
    ImportBatch(
      "batch_" + NatToString(now), platform, fileName,
      if EndsWith(fileName, ".csv") then CsvFile else ExcelFile,
      rowCount, 0, Processing, createdAt, None, None)
  }

  /**
   * The batch recorded after the loop: the imported count, status error exactly
   * when there were errors and no record, and the errors only when there were some.
   */
  function FinishedBatch(batch: ImportBatch, imported: nat, errors: seq<string>, completedAt: string): (b: ImportBatch)
    ensures b.importedCount == imported
    ensures b.status == Error <==> |errors| > 0 && imported == 0
    ensures b.status != Error ==> b.status == Completed
    ensures b.errors.None? <==> errors == []
    ensures b.errors.Some? ==> b.errors.value == errors
    ensures b.completedAt == Some(completedAt)
    ensures b.id == batch.id && b.platform == batch.platform && b.fileName == batch.fileName
    ensures b.fileType == batch.fileType && b.rowCount == batch.rowCount && b.createdAt == batch.createdAt
  {
    batch.(
      importedCount := imported,
      status := if |errors| > 0 && imported == 0 then Error else Completed,
      completedAt := Some(completedAt),
      errors := if |errors| > 0 then Some(errors) else None)
  }

  // ---------------------------------------------------------------------------
  // A worked example
  // ---------------------------------------------------------------------------

  /** Column "Date" mapped onto the date and "Revenu" onto the revenue, for Facebook. */
  function ExampleContext(host: Host, clock: nat -> int): ImportContext
  {
    ImportContext(Facebook, [ColumnMapping("Date", DateField), ColumnMapping("Revenu", RevenueField)], host, clock)
  }

  function ExampleRow(date: string, revenue: string): Row
  {
    map["Date" := Str(date), "Revenu" := Str(revenue)]
  }

  lemma ExampleReady(host: Host, clock: nat -> int, date: string, revenue: string)
    ensures Ready(ExampleContext(host, clock).mappings)
    ensures MappedCell(ExampleContext(host, clock).mappings, ExampleRow(date, revenue), DateField) == Str(date)
    ensures MappedCell(ExampleContext(host, clock).mappings, ExampleRow(date, revenue), RevenueField) == Str(revenue)
    ensures forall f :: f != DateField && f != RevenueField ==> !Mapped(ExampleContext(host, clock).mappings, f)
  {
    var ms := ExampleContext(host, clock).mappings;
    assert ms[0].field == DateField && ms[1].field == RevenueField;
  }

  /** The row becomes the record built from its date and revenue when both cells are present and read. */
  lemma RowImportedWhen(ctx: ImportContext, i: nat, row: Row, iso: string, v: real)
    requires Ready(ctx.mappings)
    requires !Falsy(MappedCell(ctx.mappings, row, DateField)) && !Falsy(MappedCell(ctx.mappings, row, RevenueField))
    requires DateOfCell(ctx.host, MappedCell(ctx.mappings, row, DateField)) == Some(iso)
    requires RevenueOfCell(MappedCell(ctx.mappings, row, RevenueField)) == Finite(v)
    ensures RowOutcome(ctx, i, row) == Imported(RecordOf(ctx, i, row, iso, v))
  {
  }

  /** The row is rejected for its date when both cells are present and the date cannot be read. */
  lemma RowDateRejectedWhen(ctx: ImportContext, i: nat, row: Row)
    requires Ready(ctx.mappings)
    requires !Falsy(MappedCell(ctx.mappings, row, DateField)) && !Falsy(MappedCell(ctx.mappings, row, RevenueField))
    requires DateOfCell(ctx.host, MappedCell(ctx.mappings, row, DateField)).None?
    ensures RowOutcome(ctx, i, row) ==
            Rejected(LinePrefix(i) + "Format de date invalide (" + CellText(ctx.host, MappedCell(ctx.mappings, row, DateField)) + ")")
  {
  }

  /** The row is rejected for its revenue when the date is read and the revenue cannot be. */
  lemma RowRevenueRejectedWhen(ctx: ImportContext, i: nat, row: Row)
    requires Ready(ctx.mappings)
    requires !Falsy(MappedCell(ctx.mappings, row, DateField)) && !Falsy(MappedCell(ctx.mappings, row, RevenueField))
    requires DateOfCell(ctx.host, MappedCell(ctx.mappings, row, DateField)).Some?
    requires RevenueOfCell(MappedCell(ctx.mappings, row, RevenueField)).NaN?
    ensures RowOutcome(ctx, i, row) ==
            Rejected(LinePrefix(i) + "Revenu invalide (" + CellText(ctx.host, MappedCell(ctx.mappings, row, RevenueField)) + ")")
  {
  }

  lemma ExampleFirstFallback()
    ensures DateFallback("01/02/2024") == Some("2024-02-01")
  {
    assert "01" + ['/'] + "02" + ['/'] + "2024" == "01/02/2024";
    assert Free("01", DateSeparators) && Free("02", DateSeparators) && Free("2024", DateSeparators);
    DateFallbackReassembles("01", "02", "2024", '/');
    ExampleFirstReassembled();
  }

  lemma ExampleFirstReassembled()
    ensures "2024" + "-" + "02" + "-" + "01" == "2024-02-01"
  {
  }

  lemma ExampleFirstDate(host: Host)
    requires host.dateOfString("01/02/2024") == None
    requires host.dateOfString("2024-02-01") == Some("2024-02-01T00:00:00.000Z")
    ensures DateOfCell(host, Str("01/02/2024")) == Some("2024-02-01T00:00:00.000Z")
  {
    ExampleFirstFallback();
  }

  lemma ExampleDigits()
    ensures NatToString(125) == "125"
    ensures FractionValue("50") == 0.5
  {
    assert NatToString(1) == "1";
    assert NatToString(12) == "12";
    assert "50"[1..] == "0";
    assert "0"[1..] == "";
  }

  lemma ExampleFirstRevenue()
    ensures RevenueOfCell(Str("125,50")) == Finite(125.5)
  {
    ExampleDigits();
    assert NatToString(125) + "," + "50" == "125,50";
    RevenueWithDecimalComma(125, "50");
  }

  lemma ExampleStoredDate()
    ensures StoredDate("2024-02-01T00:00:00.000Z") == "2024-02-01"
  {
    assert "2024-02-01" + "T" + "00:00:00.000Z" == "2024-02-01T00:00:00.000Z";
    StoredDateOfTimestamp("2024-02-01", "00:00:00.000Z");
  }

  lemma ExampleFirstRecord(host: Host, clock: nat -> int)
    ensures RecordOf(ExampleContext(host, clock), 0, ExampleRow("01/02/2024", "125,50"), "2024-02-01T00:00:00.000Z", 125.5) ==
            RevenueRecord(clock(0), Facebook, "2024-02-01", 125.5, "EUR", None, None, None, None, None, Csv)
  {
    ExampleReady(host, clock, "01/02/2024", "125,50");
    ExampleStoredDate();
  }

  /** A row of the worked example whose two cells are read becomes the record built from them. */
  lemma ExampleRowImported(host: Host, clock: nat -> int, i: nat, date: string, revenue: string, iso: string, v: real)
    requires date != "" && revenue != ""
    requires DateOfCell(host, Str(date)) == Some(iso)
    requires RevenueOfCell(Str(revenue)) == Finite(v)
    ensures RowOutcome(ExampleContext(host, clock), i, ExampleRow(date, revenue)) ==
            Imported(RecordOf(ExampleContext(host, clock), i, ExampleRow(date, revenue), iso, v))
  {
    ExampleReady(host, clock, date, revenue);
    RowImportedWhen(ExampleContext(host, clock), i, ExampleRow(date, revenue), iso, v);
  }

  /** "01/02/2024", which the host is taken to reject, is read day first through the fallback. */
  lemma ExampleFirstRow(host: Host, clock: nat -> int)
    requires host.dateOfString("01/02/2024") == None
    requires host.dateOfString("2024-02-01") == Some("2024-02-01T00:00:00.000Z")
    ensures RowOutcome(ExampleContext(host, clock), 0, ExampleRow("01/02/2024", "125,50")) ==
            Imported(RevenueRecord(clock(0), Facebook, "2024-02-01", 125.5, "EUR", None, None, None, None, None, Csv))
  {
    ExampleFirstDate(host);
    ExampleFirstRevenue();
    ExampleRowImported(host, clock, 0, "01/02/2024", "125,50", "2024-02-01T00:00:00.000Z", 125.5);
    ExampleFirstRecord(host, clock);
  }

  lemma ExampleNoFallback()
    ensures DateFallback("invalid").None?
  {
    DateFallbackNeedsTwoSeparators("invalid");
  }

  /** "invalid" holds no separator, so the fallback does not apply and the date is rejected. */
  lemma ExampleSecondRow(host: Host, clock: nat -> int)
    requires host.dateOfString("invalid") == None
    ensures RowOutcome(ExampleContext(host, clock), 1, ExampleRow("invalid", "10")) ==
            Rejected("Ligne 2: Format de date invalide (invalid)")
  {
    ExampleReady(host, clock, "invalid", "10");
    ExampleNoFallback();
    RowDateRejectedWhen(ExampleContext(host, clock), 1, ExampleRow("invalid", "10"));
    ExampleDateMessage();
  }

  lemma ExampleDateMessage()
    ensures LinePrefix(1) + "Format de date invalide (" + "invalid" + ")" == "Ligne 2: Format de date invalide (invalid)"
  {
    ExampleLinePrefixes();
  }

  lemma ExampleRevenueMessage()
    ensures LinePrefix(2) + "Revenu invalide (" + "abc" + ")" == "Ligne 3: Revenu invalide (abc)"
  {
    ExampleLinePrefixes();
  }

  lemma ExampleLinePrefixes()
    ensures LinePrefix(1) == "Ligne 2: " && LinePrefix(2) == "Ligne 3: "
  {
    assert NatToString(2) == "2" && NatToString(3) == "3";
  }

  lemma ExampleNoRevenue()
    ensures RevenueOfCell(Str("abc")).NaN?
  {
    assert Filter("abc", KeptInRevenue) == [];
  }

  /** "abc" has nothing left after the cleaning, so the revenue is rejected. */
  lemma ExampleThirdRow(host: Host, clock: nat -> int)
    requires host.dateOfString("2024-02-03").Some?
    ensures RowOutcome(ExampleContext(host, clock), 2, ExampleRow("2024-02-03", "abc")) ==
            Rejected("Ligne 3: Revenu invalide (abc)")
  {
    ExampleReady(host, clock, "2024-02-03", "abc");
    ExampleNoRevenue();
    RowRevenueRejectedWhen(ExampleContext(host, clock), 2, ExampleRow("2024-02-03", "abc"));
    ExampleRevenueMessage();
  }

  /** One imported row followed by two rejected ones leave one record and two messages, in row order. */
  lemma ImportedThenRejected(r: RevenueRecord, m1: string, m2: string)
    ensures RecordsOf([Imported(r), Rejected(m1), Rejected(m2)]) == [r]
    ensures ErrorsOf([Imported(r), Rejected(m1), Rejected(m2)]) == [m1, m2]
  {
    var os := [Imported(r), Rejected(m1), Rejected(m2)];
    assert os[..2] == [Imported(r), Rejected(m1)] && os[..2][..1] == [Imported(r)] && os[..2][..1][..0] == [];
    assert RecordsOf(os[..2][..1]) == [r] && ErrorsOf(os[..2][..1]) == [];
    assert RecordsOf(os[..2]) == [r] && ErrorsOf(os[..2]) == [m1];
  }

  /** The outcomes of three rows are the outcomes of each, at positions 0, 1 and 2. */
  lemma ThreeOutcomes(ctx: ImportContext, a: Row, b: Row, c: Row)
    ensures Outcomes(ctx, [a, b, c]) == [RowOutcome(ctx, 0, a), RowOutcome(ctx, 1, b), RowOutcome(ctx, 2, c)]
  {
  }

  /** The three rows give one record and two errors, about rows 2 and 3. */
  lemma ExampleImport(host: Host, clock: nat -> int)
    requires host.dateOfString("01/02/2024") == None
    requires host.dateOfString("2024-02-01") == Some("2024-02-01T00:00:00.000Z")
    requires host.dateOfString("invalid") == None
    requires host.dateOfString("2024-02-03").Some?
    ensures var os := Outcomes(ExampleContext(host, clock),
                               [ExampleRow("01/02/2024", "125,50"), ExampleRow("invalid", "10"), ExampleRow("2024-02-03", "abc")]);
            && RecordsOf(os) == [RevenueRecord(clock(0), Facebook, "2024-02-01", 125.5, "EUR", None, None, None, None, None, Csv)]
            && ErrorsOf(os) == ["Ligne 2: Format de date invalide (invalid)", "Ligne 3: Revenu invalide (abc)"]
  {
    ThreeOutcomes(ExampleContext(host, clock),
                  ExampleRow("01/02/2024", "125,50"), ExampleRow("invalid", "10"), ExampleRow("2024-02-03", "abc"));
    ExampleFirstRow(host, clock);
    ExampleSecondRow(host, clock);
    ExampleThirdRow(host, clock);
    ImportedThenRejected(RevenueRecord(clock(0), Facebook, "2024-02-01", 125.5, "EUR", None, None, None, None, None, Csv),
                         "Ligne 2: Format de date invalide (invalid)", "Ligne 3: Revenu invalide (abc)");
  }
}
