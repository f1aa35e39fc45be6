/**
 * The state of the revenue import page and its handlers: choosing the
 * platform, selecting and parsing a file, editing the column mapping, moving to
 * the preview, importing, and starting over.
 *
 * Reading the file (Papa Parse for a `.csv` name, SheetJS otherwise) is done by
 * the host: a handler receives its result, the column names and the rows, or
 * None when the parser threw.
 */
module DataImport {
  import opened Collections
  import opened Text
  import opened Types
  import opened DataStore
  import opened RevenueImport
  import opened ImportRows

  /** What a successful parse of the sheet yields: its column names and its rows. */
  datatype Sheet = Sheet(columns: seq<string>, rows: seq<Row>)

  /** The three MIME types the page accepts. */
  const AllowedTypes: seq<string> := [
    "text/csv",
    "application/vnd.ms-excel",
    "application/vnd.openxmlformats-officedocument.spreadsheetml.sheet"]

  /** A file is accepted when its MIME type is allowed or its name has a spreadsheet extension. */
  predicate Accepted(fileName: string, mimeType: string)
  {
    mimeType in AllowedTypes || EndsWith(fileName, ".csv") || EndsWith(fileName, ".xlsx") || EndsWith(fileName, ".xls")
  }

  /** A file with an unknown type and another extension is refused. */
  lemma RefusedFile(fileName: string, mimeType: string)
    requires mimeType !in AllowedTypes
    requires !EndsWith(fileName, ".csv") && !EndsWith(fileName, ".xlsx") && !EndsWith(fileName, ".xls")
    ensures !Accepted(fileName, mimeType)
  {
  }

  /**
   * The audit of an import: the batch prepended to the store when the import
   * starts, and the one prepended when it ends.
   */
  function StartBatch(ctx: ImportContext, fileName: string, rows: seq<Row>, now: nat, createdAt: string): ImportBatch
  {
    ProcessingBatch(ctx.platform, fileName, |rows|, now, createdAt)
  }

  function EndBatch(ctx: ImportContext, fileName: string, rows: seq<Row>, now: nat,
                    createdAt: string, completedAt: string): ImportBatch
  {
    var os := Outcomes(ctx, rows);
    FinishedBatch(StartBatch(ctx, fileName, rows, now, createdAt), |RecordsOf(os)|, ErrorsOf(os), completedAt)
  }

  /**
   * The two batches of one import share their id, and the finished one
   * accounts for every row: with date and revenue mapped, each row is either
   * counted as imported or has its message; the batch fails only when no row
   * was imported and some was rejected.
   */
  lemma EndBatchAccounts(ctx: ImportContext, fileName: string, rows: seq<Row>, now: nat,
                         createdAt: string, completedAt: string)
    ensures var s := StartBatch(ctx, fileName, rows, now, createdAt);
            var e := EndBatch(ctx, fileName, rows, now, createdAt, completedAt);
            && e.id == s.id && e.rowCount == s.rowCount == |rows|
            && (Ready(ctx.mappings) ==>
                  e.importedCount + (if e.errors.Some? then |e.errors.value| else 0) == |rows|)
            && (!Ready(ctx.mappings) ==> e.importedCount == 0 && e.errors.None? && e.status == Completed)
            && (e.status == Error <==> e.importedCount == 0 && e.errors.Some?)
  {
    RowsPartitioned(ctx, rows);
  }

  class ImportPage {
    var selectedPlatform: Platform
    var selectedFile: Option<string>
    var parsedData: seq<Row>
    var columns: seq<string>
    var columnMappings: seq<ColumnMapping>
    var currentStep: Step

    /** Every mapping names a column of the sheet. */
    ghost predicate Valid()
      reads this
    {
      forall m :: m in columnMappings ==> m.csvColumn in columns
    }

    /** The page opens on the upload step with Facebook selected and nothing loaded. */
    constructor ()
      ensures Valid()
      ensures selectedPlatform == Facebook && selectedFile == None
      ensures parsedData == [] && columns == [] && columnMappings == [] && currentStep == UploadStep
    {
      selectedPlatform, selectedFile := Facebook, None;
      parsedData, columns, columnMappings := [], [], [];
      currentStep := UploadStep;
    }

    method SelectPlatform(p: Platform)
      modifies this
      ensures selectedPlatform == p
      ensures selectedFile == old(selectedFile) && parsedData == old(parsedData) && columns == old(columns)
      ensures columnMappings == old(columnMappings) && currentStep == old(currentStep)
    {
      selectedPlatform := p;
    }

    /**
     * A refused file changes nothing. An accepted one is selected and, when it
     * parses, its rows and columns are kept, its columns are auto-mapped and
     * the page moves to the mapping step; when the parser throws, the file
     * stays selected on the upload step with the previous rows.
     */
    method SelectFile(fileName: string, mimeType: string, parsed: Option<Sheet>)
      requires Valid()
      modifies this
      ensures Valid()
      ensures selectedPlatform == old(selectedPlatform)
      ensures !Accepted(fileName, mimeType) ==>
                selectedFile == old(selectedFile) && parsedData == old(parsedData) && columns == old(columns) &&
                columnMappings == old(columnMappings) && currentStep == old(currentStep)
      ensures Accepted(fileName, mimeType) ==> selectedFile == Some(fileName)
      ensures Accepted(fileName, mimeType) && parsed.None? ==>
                parsedData == old(parsedData) && columns == old(columns) &&
                columnMappings == old(columnMappings) && currentStep == UploadStep
      ensures Accepted(fileName, mimeType) && parsed.Some? ==>
                parsedData == parsed.value.rows && columns == parsed.value.columns &&
                columnMappings == AutoMappings(parsed.value.columns) && currentStep == MappingStep
    {
      if !Accepted(fileName, mimeType) {
        return;
      }
      selectedFile := Some(fileName);
      currentStep := UploadStep;
      if parsed.Some? {
        var cols := parsed.value.columns;
        parsedData := parsed.value.rows;
        columns := cols;
        var mappings := AutoMap(cols);
        AutoMappingsSpec(cols);
        columnMappings := mappings;
        currentStep := MappingStep;
      }
    }

    /** The mapping selector of column `col`; `None` is "not mapped". */
    method ChangeMapping(col: string, field: Option<Field>)
      requires Valid() && col in columns
      modifies this
      ensures Valid()
      ensures columnMappings == MappingChanged(old(columnMappings), col, field)
      ensures selectedPlatform == old(selectedPlatform) && selectedFile == old(selectedFile)
      ensures parsedData == old(parsedData) && columns == old(columns) && currentStep == old(currentStep)
    {
      columnMappings := MappingChanged(columnMappings, col, field);
    }

    /** Moves to the preview when date and revenue are mapped, and stays otherwise. */
    method Preview()
      modifies this
      ensures currentStep == AfterPreview(old(columnMappings), old(currentStep))
      ensures selectedPlatform == old(selectedPlatform) && selectedFile == old(selectedFile)
      ensures parsedData == old(parsedData) && columns == old(columns) && columnMappings == old(columnMappings)
    {
      currentStep := AfterPreview(columnMappings, currentStep);
    }

    /** The preview's back button. */
    method BackToMapping()
      modifies this
      ensures currentStep == MappingStep
      ensures selectedPlatform == old(selectedPlatform) && selectedFile == old(selectedFile)
      ensures parsedData == old(parsedData) && columns == old(columns) && columnMappings == old(columnMappings)
    {
      currentStep := MappingStep;
    }

    /** Forgets the file, its rows, columns and mappings; the platform stays. */
    method Reset()
      modifies this
      ensures Valid()
      ensures selectedFile == None && parsedData == [] && columns == [] && columnMappings == []
      ensures currentStep == UploadStep && selectedPlatform == old(selectedPlatform)
    {
      selectedFile, parsedData, columns, columnMappings := None, [], [], [];
      currentStep := UploadStep;
    }

    /**
     * `handleImport`. Without a file or rows nothing happens. Otherwise the
     * rows are imported into the store and the page is reset. `now` is
     * `Date.now()` when the batch is created and `clock(i)` its value when row
     * `i` is read.
     */
    method Import(store: Store, host: Host, now: nat, clock: nat -> int, createdAt: string, completedAt: string)
      modifies this, store
      ensures old(selectedFile).None? || old(parsedData) == [] ==>
                && store.importBatches == old(store.importBatches) && store.revenueData == old(store.revenueData)
                && selectedFile == old(selectedFile) && parsedData == old(parsedData) && columns == old(columns)
                && columnMappings == old(columnMappings) && currentStep == old(currentStep)
      ensures old(selectedFile).Some? && old(parsedData) != [] ==>
                var ctx := ImportContext(old(selectedPlatform), old(columnMappings), host, clock);
                && store.revenueData == RecordsOf(Outcomes(ctx, old(parsedData))) + old(store.revenueData)
                && store.importBatches ==
                   [EndBatch(ctx, old(selectedFile).value, old(parsedData), now, createdAt, completedAt),
                    StartBatch(ctx, old(selectedFile).value, old(parsedData), now, createdAt)] +
                   old(store.importBatches)
                && selectedFile == None && parsedData == [] && columns == [] && columnMappings == []
                && currentStep == UploadStep
      ensures selectedPlatform == old(selectedPlatform)
      ensures store.accounts == old(store.accounts) && store.posts == old(store.posts)
      ensures store.dateRange == old(store.dateRange)
    {
      if selectedFile.None? || parsedData == [] {
        return;
      }
      var ctx := ImportContext(selectedPlatform, columnMappings, host, clock);
      currentStep := ImportingStep;
      RunImport(store, ctx, selectedFile.value, parsedData, now, createdAt, completedAt);
      selectedFile, parsedData, columns, columnMappings := None, [], [], [];
      currentStep := UploadStep;
    }
  }

  /**
   * The body of the import: the processing batch is prepended, the rows are
   * normalised, the records (if any) are prepended to the store's revenue and
   * the finished batch is prepended in turn.
   */
  method RunImport(store: Store, ctx: ImportContext, fileName: string, rows: seq<Row>, now: nat,
                   createdAt: string, completedAt: string)
    modifies store
    ensures store.revenueData == RecordsOf(Outcomes(ctx, rows)) + old(store.revenueData)
    ensures store.importBatches ==
            [EndBatch(ctx, fileName, rows, now, createdAt, completedAt), StartBatch(ctx, fileName, rows, now, createdAt)] +
            old(store.importBatches)
    ensures store.accounts == old(store.accounts) && store.posts == old(store.posts)
    ensures store.dateRange == old(store.dateRange)
  {
    var batch := StartBatch(ctx, fileName, rows, now, createdAt);
    store.AddImportBatch(batch);
    var records, errors := Normalize(ctx, rows);
    if |records| > 0 {
      store.AddRevenueData(records);
    } else {
      assert records + store.revenueData == store.revenueData;
    }
    store.AddImportBatch(FinishedBatch(batch, |records|, errors, completedAt));
  }
}
