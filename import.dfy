/**
 * The revenue import page: a spreadsheet that has already been read into rows
 * keyed by column name is mapped onto the seven revenue fields, checked for the
 * two required mappings, and normalised row by row into revenue records or one
 * error message per rejected row; the batch that audits the import records the
 * outcome.
 */
module RevenueImport {
  import opened Collections
  import opened Text
  import opened Types
  import opened DataStore

  // ---------------------------------------------------------------------------
  // The seven revenue fields
  // ---------------------------------------------------------------------------

  datatype Field = DateField | RevenueField | ImpressionsField | ClicksField
                 | CtrField | CpmField | EstimatedEarningsField

  /** The field's key, as stored in a mapping. */
  function FieldKey(f: Field): string
  {
    match f
    case DateField => "date"
    case RevenueField => "revenue"
    case ImpressionsField => "impressions"
    case ClicksField => "clicks"
    case CtrField => "ctr"
    case CpmField => "cpm"
    case EstimatedEarningsField => "estimated_earnings"
  }

  /** The field's display label. */
  function FieldLabel(f: Field): string
  {
    match f
    case DateField => "Date"
    case RevenueField => "Revenu"
    case ImpressionsField => "Impressions"
    case ClicksField => "Clics"
    case CtrField => "CTR (%)"
    case CpmField => "CPM"
    case EstimatedEarningsField => "Gains estimés"
  }

  /** Date and revenue must be mapped; the other five are optional. */
  predicate Required(f: Field)
  {
    f == DateField || f == RevenueField
  }

  /** The declared order of the fields, in which auto-mapping tries them. */
  const RevenueFields: seq<Field> :=
    [DateField, RevenueField, ImpressionsField, ClicksField, CtrField, CpmField, EstimatedEarningsField]

  function FieldIndex(f: Field): (k: nat)
    ensures k < |RevenueFields| && RevenueFields[k] == f
  {
    match f
    case DateField => 0
    case RevenueField => 1
    case ImpressionsField => 2
    case ClicksField => 3
    case CtrField => 4
    case CpmField => 5
    case EstimatedEarningsField => 6
  }

  /** Reading a field back from its key: the seven keys are exactly the fields. */
  lemma FieldKeyInjective(f: Field, g: Field)
    requires FieldKey(f) == FieldKey(g)
    ensures f == g
  {
  }

  /** One column of the sheet mapped onto one field. */
  datatype ColumnMapping = ColumnMapping(csvColumn: string, field: Field)

  // ---------------------------------------------------------------------------
  // Auto-mapping
  // ---------------------------------------------------------------------------

  /** The lower-cased column name contains the field's key or its lower-cased label. */
  predicate Matches(col: string, f: Field)
  {
    Contains(Lower(col), Lower(FieldKey(f))) || Contains(Lower(col), Lower(FieldLabel(f)))
  }

  /** The first field, from position `k` of the declared order on, that the column matches. */
  function FindFieldFrom(col: string, k: nat): (r: Option<Field>)
    requires k <= |RevenueFields|
    ensures r.None? ==> forall f :: k <= FieldIndex(f) ==> !Matches(col, f)
    ensures r.Some? ==> Matches(col, r.value) && k <= FieldIndex(r.value)
    ensures r.Some? ==> forall f :: k <= FieldIndex(f) < FieldIndex(r.value) ==> !Matches(col, f)
    decreases |RevenueFields| - k
  {
    if k == |RevenueFields| then None
    else if Matches(col, RevenueFields[k]) then Some(RevenueFields[k])
    else FindFieldFrom(col, k + 1)
  }

  /** `revenueFields.find(...)`: the first field in declared order that the column matches. */
  function FirstMatch(col: string): (r: Option<Field>)
    ensures r.None? <==> forall f :: !Matches(col, f)
    ensures r.Some? ==> Matches(col, r.value)
    ensures r.Some? ==> forall f :: FieldIndex(f) < FieldIndex(r.value) ==> !Matches(col, f)
  {
    FindFieldFrom(col, 0)
  }

  /** The column of every mapping, in order. */
  function MappedColumns(ms: seq<ColumnMapping>): (r: seq<string>)
    ensures |r| == |ms|
    ensures forall i :: 0 <= i < |ms| ==> r[i] == ms[i].csvColumn
  {
    seq(|ms|, i requires 0 <= i < |ms| => ms[i].csvColumn)
  }

  lemma MappedColumnsConcat(a: seq<ColumnMapping>, b: seq<ColumnMapping>)
    ensures MappedColumns(a + b) == MappedColumns(a) + MappedColumns(b)
  {
  }

  /** One mapping per column for which `choose` picks a field, in column order. */
  function Pick(cols: seq<string>, choose: string -> Option<Field>): seq<ColumnMapping>
  {
    if cols == [] then []
    else
      var last := cols[|cols| - 1];
      Pick(cols[..|cols| - 1], choose) +
      (if choose(last).Some? then [ColumnMapping(last, choose(last).value)] else [])
  }

  /** The columns for which `choose` picks a field. */
  function Picked(choose: string -> Option<Field>): string -> bool
  {
    col => choose(col).Some?
  }

  /** The mapped columns are, in order, exactly the columns that have a pick. */
  lemma {:induction false} PickColumns(cols: seq<string>, choose: string -> Option<Field>)
    ensures MappedColumns(Pick(cols, choose)) == Filter(cols, Picked(choose))
  {
    if cols != [] {
      var init, last := cols[..|cols| - 1], cols[|cols| - 1];
      PickColumns(init, choose);
      assert cols == init + [last];
      FilterSnoc(init, last, Picked(choose));
      assert Picked(choose)(last) == choose(last).Some?;
      var tail := if choose(last).Some? then [ColumnMapping(last, choose(last).value)] else [];
      MappedColumnsConcat(Pick(init, choose), tail);
    }
  }

  /** Each mapped column goes to the field picked for it. */
  lemma {:induction false} PickFields(cols: seq<string>, choose: string -> Option<Field>)
    ensures forall m :: m in Pick(cols, choose) ==> choose(m.csvColumn) == Some(m.field)
  {
    if cols != [] {
      PickFields(cols[..|cols| - 1], choose);
    }
  }

  /** The mappings that auto-mapping derives from the column names. */
  function AutoMappings(cols: seq<string>): seq<ColumnMapping>
  {
    Pick(cols, FirstMatch)
  }

  /**
   * Auto-mapping keeps, in their order, exactly the columns that match some
   * field, each once, and maps each onto the first field, in declared order, that it matches.
   */
  lemma AutoMappingsSpec(cols: seq<string>)
    ensures MappedColumns(AutoMappings(cols)) == Filter(cols, Picked(FirstMatch))
    ensures forall m :: m in AutoMappings(cols) ==> FirstMatch(m.csvColumn) == Some(m.field)
  {
    PickColumns(cols, FirstMatch);
    PickFields(cols, FirstMatch);
  }

  /** The `forEach` over the columns that pushes one mapping per column with a pick. */
  method PickEach(cols: seq<string>, choose: string -> Option<Field>) returns (mappings: seq<ColumnMapping>)
    ensures mappings == Pick(cols, choose)
  {
    mappings := [];
    var i := 0;
    while i < |cols|
      invariant 0 <= i <= |cols|
      invariant mappings == Pick(cols[..i], choose)
    {
      var col := cols[i];
      assert cols[..i + 1][..i] == cols[..i];
      var matched := choose(col);
      if matched.Some? {
        mappings := mappings + [ColumnMapping(col, matched.value)];
      } else {
        assert mappings + [] == mappings;
      }
      i := i + 1;
    }
    assert cols[..i] == cols;
  }

  /** Auto-mapping: each column is mapped onto the first field it matches, if any. */
  method AutoMap(cols: seq<string>) returns (mappings: seq<ColumnMapping>)
    ensures mappings == AutoMappings(cols)
  {
    mappings := PickEach(cols, FirstMatch);
  }

  /** A column lacking a character of a field's key and one of its label does not match the field. */
  lemma NotMatches(col: string, f: Field, i: nat, j: nat)
    requires i < |FieldKey(f)| && j < |FieldLabel(f)|
    requires LowerChar(FieldKey(f)[i]) !in Lower(col)
    requires LowerChar(FieldLabel(f)[j]) !in Lower(col)
    ensures !Matches(col, f)
  {
    assert Lower(FieldKey(f))[i] in Lower(FieldKey(f));
    assert Lower(FieldLabel(f))[j] in Lower(FieldLabel(f));
    MissingChar(Lower(col), Lower(FieldKey(f)), LowerChar(FieldKey(f)[i]));
    MissingChar(Lower(col), Lower(FieldLabel(f)), LowerChar(FieldLabel(f)[j]));
  }

  lemma EarningsColumnNotDate(col: string)
    requires Lower(col) == "gains_estimes" || Lower(col) == "gains estimés"
    ensures !Matches(col, DateField)
  {
    NotMatches(col, DateField, 0, 0);
  }

  lemma EarningsColumnNotRevenue(col: string)
    requires Lower(col) == "gains_estimes" || Lower(col) == "gains estimés"
    ensures !Matches(col, RevenueField)
  {
    NotMatches(col, RevenueField, 0, 0);
  }

  lemma EarningsColumnNotImpressions(col: string)
    requires Lower(col) == "gains_estimes" || Lower(col) == "gains estimés"
    ensures !Matches(col, ImpressionsField)
  {
    NotMatches(col, ImpressionsField, 2, 2);
  }

  lemma EarningsColumnNotClicks(col: string)
    requires Lower(col) == "gains_estimes" || Lower(col) == "gains estimés"
    ensures !Matches(col, ClicksField)
  {
    NotMatches(col, ClicksField, 0, 0);
  }

  lemma EarningsColumnNotCtr(col: string)
    requires Lower(col) == "gains_estimes" || Lower(col) == "gains estimés"
    ensures !Matches(col, CtrField)
  {
    NotMatches(col, CtrField, 0, 0);
  }

  lemma EarningsColumnNotCpm(col: string)
    requires Lower(col) == "gains_estimes" || Lower(col) == "gains estimés"
    ensures !Matches(col, CpmField)
  {
    NotMatches(col, CpmField, 0, 0);
  }

  lemma EarningsColumnNotEarnings(col: string)
    requires Lower(col) == "gains_estimes"
    ensures !Matches(col, EstimatedEarningsField)
  {
    NotMatches(col, EstimatedEarningsField, 8, 5);
  }

  /**
   * The downloadable template's earnings column "Gains_Estimes" matches no field:
   * its underscore and missing accent keep it from containing "gains estimés",
   * so auto-mapping leaves it unmapped.
   */
  lemma TemplateEarningsColumnUnmapped()
    ensures FirstMatch("Gains_Estimes") == None
  {
    var col := "Gains_Estimes";
    assert Lower(col) == "gains_estimes";
    forall f: Field ensures !Matches(col, f) {
      match f
      case DateField => EarningsColumnNotDate(col);
      case RevenueField => EarningsColumnNotRevenue(col);
      case ImpressionsField => EarningsColumnNotImpressions(col);
      case ClicksField => EarningsColumnNotClicks(col);
      case CtrField => EarningsColumnNotCtr(col);
      case CpmField => EarningsColumnNotCpm(col);
      case EstimatedEarningsField => EarningsColumnNotEarnings(col);
    }
  }

  /** A column named like the date field, in any case, is mapped onto it. */
  /**
   * Lower-casing folds accented capitals too, so the column "GAINS ESTIMÉS" holds
   * the earnings label and, matching no earlier field, is mapped onto it.
   */
  lemma AccentedEarningsColumnMapped()
    ensures FirstMatch("GAINS ESTIMÉS") == Some(EstimatedEarningsField)
  {
    var col := "GAINS ESTIMÉS";
    AccentedEarningsLower();
    assert Matches(col, EstimatedEarningsField) by {
      assert Lower(FieldLabel(EstimatedEarningsField)) == "gains estimés";
      assert Lower(col)[..|"gains estimés"|] == "gains estimés";
    }
    EarningsColumnNotDate(col);
    EarningsColumnNotRevenue(col);
    EarningsColumnNotImpressions(col);
    EarningsColumnNotClicks(col);
    EarningsColumnNotCtr(col);
    EarningsColumnNotCpm(col);
  }

  lemma AccentedEarningsLower()
    ensures Lower("GAINS ESTIMÉS") == "gains estimés"
  {
  }

  lemma DateColumnMapped(col: string)
    requires Lower(col) == "date"
    ensures FirstMatch(col) == Some(DateField)
  {
    assert Lower(FieldKey(DateField)) == "date";
    assert Lower(col)[..4] == "date";
  }

  /**
   * Nothing keeps two columns off the same field: "Date" and "date" are both
   * mapped onto the date field, and the readers then take the first.
   */
  lemma TwoColumnsOneField()
    ensures AutoMappings(["Date", "date"]) == [ColumnMapping("Date", DateField), ColumnMapping("date", DateField)]
  {
    DateColumnMapped("Date");
    DateColumnMapped("date");
    assert ["Date", "date"][..1] == ["Date"] && ["Date"][..0] == [];
  }

  // ---------------------------------------------------------------------------
  // Manual edits to the mapping
  // ---------------------------------------------------------------------------

  predicate OtherColumn(m: ColumnMapping, col: string)
  {
    m.csvColumn != col
  }

  /** The mappings of every column but `col`, in order. */
  function OtherMappings(ms: seq<ColumnMapping>, col: string): (r: seq<ColumnMapping>)
    ensures forall m :: m in r <==> m in ms && m.csvColumn != col
    ensures forall m :: multiset(r)[m] == if m.csvColumn != col then multiset(ms)[m] else 0
    ensures Subsequence(r, ms)
  {
    FilterIsSubsequence(ms, m => OtherColumn(m, col));
    FilterMultiset(ms, m => OtherColumn(m, col));
    Filter(ms, m => OtherColumn(m, col))
  }

  /**
   * `handleMappingChange`: every mapping of `col` is dropped and, unless the
   * choice is "not mapped" (`None`), the new one is appended.
   */
  function MappingChanged(prev: seq<ColumnMapping>, col: string, field: Option<Field>): (r: seq<ColumnMapping>)
    ensures OtherMappings(r, col) == OtherMappings(prev, col)
    ensures forall m :: m in r && m.csvColumn == col ==> field == Some(m.field)
    ensures field.Some? ==> |r| > 0 && r[|r| - 1] == ColumnMapping(col, field.value)
    ensures field.None? ==> forall m :: m in r ==> m.csvColumn != col
    ensures |r| == |OtherMappings(prev, col)| + (if field.Some? then 1 else 0)
    ensures r[..|OtherMappings(prev, col)|] == OtherMappings(prev, col)
  {
    var kept := OtherMappings(prev, col);
    OtherMappingsIdempotent(prev, col);
    if field.Some? then
      var m := ColumnMapping(col, field.value);
      OtherMappingsSnoc(kept, m, col);
      assert (kept + [m])[..|kept|] == kept;
      kept + [m]
    else
      kept
  }

  lemma {:induction false} OtherMappingsIdempotent(ms: seq<ColumnMapping>, col: string)
    ensures OtherMappings(OtherMappings(ms, col), col) == OtherMappings(ms, col)
  {
    var kept := OtherMappings(ms, col);
    forall i | 0 <= i < |kept| ensures OtherColumn(kept[i], col) {
      assert kept[i] in kept;
    }
    FilterAll(kept, m => OtherColumn(m, col));
  }

  lemma OtherMappingsSnoc(ms: seq<ColumnMapping>, m: ColumnMapping, col: string)
    requires m.csvColumn == col
    ensures OtherMappings(ms + [m], col) == OtherMappings(ms, col)
  {
    FilterConcat(ms, [m], x => OtherColumn(x, col));
    assert [m][1..] == [];
    assert OtherMappings(ms, col) + [] == OtherMappings(ms, col);
  }

  /** Choosing the same field for the same column twice is the same as choosing it once. */
  lemma MappingChangedIdempotent(prev: seq<ColumnMapping>, col: string, field: Option<Field>)
    ensures MappingChanged(MappingChanged(prev, col, field), col, field) == MappingChanged(prev, col, field)
  {
    OtherMappingsIdempotent(prev, col);
    if field.Some? {
      OtherMappingsSnoc(OtherMappings(prev, col), ColumnMapping(col, field.value), col);
    }
  }

  // ---------------------------------------------------------------------------
  // Readiness and the preview
  // ---------------------------------------------------------------------------

  /** The position of the first mapping onto `f`, or -1 when there is none. */
  function FirstIndexOfField(ms: seq<ColumnMapping>, f: Field): (k: int)
    ensures -1 <= k < |ms|
    ensures k == -1 <==> forall i :: 0 <= i < |ms| ==> ms[i].field != f
    ensures k >= 0 ==> ms[k].field == f && forall j :: 0 <= j < k ==> ms[j].field != f
  {
    if ms == [] then -1
    else if ms[0].field == f then 0
    else
      var k := FirstIndexOfField(ms[1..], f);
      if k < 0 then -1 else k + 1
  }

  /** `columnMappings.find(m => m.field === f)`: the first mapping onto `f`. */
  function FindByField(ms: seq<ColumnMapping>, f: Field): (r: Option<ColumnMapping>)
    ensures r.None? <==> forall i :: 0 <= i < |ms| ==> ms[i].field != f
    ensures r.Some? ==> exists k :: 0 <= k < |ms| && ms[k] == r.value && r.value.field == f &&
                                    forall j :: 0 <= j < k ==> ms[j].field != f
  {
    var k := FirstIndexOfField(ms, f);
    if k < 0 then None else Some(ms[k])
  }

  /** Some mapping targets the field. */
  ghost predicate Mapped(ms: seq<ColumnMapping>, f: Field)
  {
    exists m :: m in ms && m.field == f
  }

  /** Both required fields have a mapping. */
  predicate Ready(ms: seq<ColumnMapping>)
  {
    FindByField(ms, DateField).Some? && FindByField(ms, RevenueField).Some?
  }

  datatype Step = UploadStep | MappingStep | PreviewStep | ImportingStep

  /** `handlePreview`: moves to the preview only when date and revenue are both mapped. */
  function AfterPreview(ms: seq<ColumnMapping>, step: Step): (r: Step)
    ensures Mapped(ms, DateField) && Mapped(ms, RevenueField) ==> r == PreviewStep
    ensures !(Mapped(ms, DateField) && Mapped(ms, RevenueField)) ==> r == step
  {
    if Ready(ms) then PreviewStep else step
  }

  /**
   * A spreadsheet cell: text, a number, the parser's `null` for an empty cell,
   * or `undefined` for a column the row lacks.
   */
  datatype Cell = Str(s: string) | Num(v: real) | Null | Undefined

  /** A parsed row: cell values keyed by column name. */
  type Row = map<string, Cell>

  /** `row[col]`: a column the row lacks reads as undefined. */
  function CellAt(row: Row, col: string): Cell
  {
    if col in row then row[col] else Undefined
  }

  function MappingLabel(m: ColumnMapping): string { FieldLabel(m.field) }

  function CellOf(row: Row): ColumnMapping -> Cell
  {
    (m: ColumnMapping) => CellAt(row, m.csvColumn)
  }

  /**
   * One preview line: for each mapped field, by its label, the cell of its
   * column; when two mappings share a field, the later one wins.
   */
  function PreviewRow(row: Row, ms: seq<ColumnMapping>): (r: map<string, Cell>)
    ensures r.Keys == KeysOf(ms, MappingLabel)
    ensures forall l :: l in r ==> r[l] == CellAt(row, ms[LastIndexOf(ms, MappingLabel, l)].csvColumn)
  {
    KeyedByLastWins(ms, MappingLabel, CellOf(row));
    KeyedBy(ms, MappingLabel, CellOf(row))
  }

  /** `getPreviewData`: the preview lines of the first five rows. */
  function PreviewData(rows: seq<Row>, ms: seq<ColumnMapping>): (r: seq<map<string, Cell>>)
    ensures |r| == if |rows| < 5 then |rows| else 5
    ensures forall i :: 0 <= i < |r| ==> r[i] == PreviewRow(rows[i], ms)
  {
    var n := if |rows| < 5 then |rows| else 5;
    seq(n, i requires 0 <= i < n => PreviewRow(rows[i], ms))
  }
}
