/**
 * The single-shot handlers of Monitoring.Revit/Logging/Events.cs: each maps
 * one host event payload to the records it logs (none or one). The payloads
 * are the parts of Revit's event arguments the handlers read. `logger` says
 * whether the static Serilog logger is set; every handler logs nothing when
 * it is not.
 */
module Events {
  import opened Telemetry

  datatype DocumentType = Project | Family | Template | BuildingComponent | IFC | Other

  function DocumentTypeName(t: DocumentType): string {
    match t
    case Project => "Project"
    case Family => "Family"
    case Template => "Template"
    case BuildingComponent => "BuildingComponent"
    case IFC => "IFC"
    case Other => "Other"
  }

  datatype ElementId = ElementId(id: int)

  const InvalidElementId := ElementId(-1)

  datatype ViewActivatedArgs = ViewActivatedArgs(isValidObject: bool, viewName: string, documentPath: string)

  datatype FamilyLoadedArgs = FamilyLoadedArgs(
    isValidObject: bool, familyName: string, familyPath: string, originalFamilyId: Option<ElementId>)

  /** The payload of both FileImported and FileExported. */
  datatype FileArgs = FileArgs(isValidObject: bool, format: string, path: string, documentPath: string)

  datatype ChangedArgs = ChangedArgs(
    isValidObject: bool, documentPath: string, deleted: nat, modified: nat, added: nat)

  datatype RibbonItem = RibbonItem(text: string, id: string)

  datatype ItemExecutedArgs = ItemExecutedArgs(item: Option<RibbonItem>)

  /** A record whose one property is a captured dictionary. */
  function DataRecord(template: string, data: Context): Record {
    Record(template, [Dict(data)])
  }

  function ViewActivatedRecord(e: ViewActivatedArgs): Record {
    DataRecord("View Activated: {Data}", [Entry("viewName", Text(e.viewName)), Entry("document", Text(e.documentPath))])
  }

  /** DocViewActivated: one record with the view name and the document path. */
  function DocViewActivated(logger: bool, e: ViewActivatedArgs): (out: seq<Record>)
    ensures out != [] <==> logger && e.isValidObject
    ensures out != [] ==> out == [ViewActivatedRecord(e)]
  {
    if !logger || !e.isValidObject then [] else [ViewActivatedRecord(e)]
  }

  // ---------------------------------------------------------------------
  // FamilyLoaded and its override flag
  // ---------------------------------------------------------------------

  /** The override flag as the code computes it: the id is null and, at once, equal to the invalid id. */
  function OverrideAsWritten(id: Option<ElementId>): bool {
    id == None && id == Some(InvalidElementId)
  }

  /** The flag as written can never be set, whatever family is loaded. */
  lemma OverrideAsWrittenNeverSet(id: Option<ElementId>)
    ensures !OverrideAsWritten(id)
  {
  }

  /** The evidently intended flag: the load replaced an existing family, whose id is a real one. */
  function OverrideFlag(id: Option<ElementId>): (r: bool)
    ensures r <==> id.Some? && id.value != InvalidElementId
  {
    match id
    case None => false
    case Some(i) => i != InvalidElementId
  }

  /** A reload of an existing family is an input on which the two flags differ. */
  lemma OverrideDiffersOnReload()
    ensures OverrideFlag(Some(ElementId(42))) && !OverrideAsWritten(Some(ElementId(42)))
  {
  }

  function FamilyLoadedRecord(e: FamilyLoadedArgs, overridden: bool): Record {
    DataRecord("Family Loaded: {Data}", [
      Entry("familyName", Text(e.familyName)),
      Entry("familyPath", Text(e.familyPath)),
      Entry("override", Flag(overridden))])
  }

  /**
   * FamilyLoaded as written: one record with the family name, path and the
   * override flag, which is false whatever family the load replaced.
   */
  function FamilyLoaded(logger: bool, e: FamilyLoadedArgs): (out: seq<Record>)
    ensures out != [] <==> logger && e.isValidObject
    ensures out != [] ==> out == [FamilyLoadedRecord(e, false)]
  {
    if !logger || !e.isValidObject then [] else [FamilyLoadedRecord(e, OverrideAsWritten(e.originalFamilyId))]
  }

  /** FamilyLoaded with the evidently intended flag: set exactly when the load replaced a real family. */
  function FamilyLoadedCorrected(logger: bool, e: FamilyLoadedArgs): (out: seq<Record>)
    ensures out != [] <==> logger && e.isValidObject
    ensures out != [] ==>
      out == [FamilyLoadedRecord(e, e.originalFamilyId.Some? && e.originalFamilyId.value != InvalidElementId)]
  {
    if !logger || !e.isValidObject then [] else [FamilyLoadedRecord(e, OverrideFlag(e.originalFamilyId))]
  }

  /** Reloading over family 42, the handler as written logs override = false; the corrected one logs true. */
  lemma ReloadLogsNoOverride(e: FamilyLoadedArgs)
    requires e.isValidObject && e.originalFamilyId == Some(ElementId(42))
    ensures FamilyLoaded(true, e) == [FamilyLoadedRecord(e, false)]
    ensures FamilyLoadedCorrected(true, e) == [FamilyLoadedRecord(e, true)]
  {
  }

  // ---------------------------------------------------------------------
  // FileImported, FileExported, Initialized
  // ---------------------------------------------------------------------

  function FileData(e: FileArgs): Context {
    [Entry("fileFormat", Text(e.format)), Entry("path", Text(e.path)), Entry("document", Text(e.documentPath))]
  }

  /** FileImported: one record with the format, the imported path and the document path. */
  function FileImported(logger: bool, e: FileArgs): (out: seq<Record>)
    ensures out != [] <==> logger && e.isValidObject
    ensures out != [] ==> out == [DataRecord("File Imported: {Data}", FileData(e))]
  {
    if !logger || !e.isValidObject then [] else [DataRecord("File Imported: {Data}", FileData(e))]
  }

  /** FileExported: as FileImported, under its own template. */
  function FileExported(logger: bool, e: FileArgs): (out: seq<Record>)
    ensures out != [] <==> logger && e.isValidObject
    ensures out != [] ==> out == [DataRecord("File Exported: {Data}", FileData(e))]
  {
    if !logger || !e.isValidObject then [] else [DataRecord("File Exported: {Data}", FileData(e))]
  }

  /** Initialized: one payload-free record whenever the logger is set. */
  function Initialized(logger: bool): (out: seq<Record>)
    ensures |out| == if logger then 1 else 0
    ensures out != [] ==> out == [Record("Revit Application Initialized", [])]
  {
    if logger then [Record("Revit Application Initialized", [])] else []
  }

  // ---------------------------------------------------------------------
  // DocChanged: element counts as decimal strings
  // ---------------------------------------------------------------------

  predicate IsDigit(c: char) {
    '0' <= c <= '9'
  }

  function DigitChar(d: nat): (c: char)
    requires d < 10
    ensures IsDigit(c) && c as int - '0' as int == d
  {
    ('0' as int + d) as char
  }

  function DigitValue(c: char): (d: nat)
    requires IsDigit(c)
    ensures d < 10
  {
    c as int - '0' as int
  }

  /** Int32.ToString() of a count: decimal digits, no sign, no leading zero. */
  function Decimal(n: nat): (s: string)
    ensures |s| > 0
    ensures forall i :: 0 <= i < |s| ==> IsDigit(s[i])
    ensures s[0] == '0' ==> n == 0 && s == "0"
    decreases n
  {
    if n < 10 then [DigitChar(n)] else Decimal(n / 10) + [DigitChar(n % 10)]
  }

  /** Reads a string of decimal digits back as a number. */
  function DecimalValue(s: string): nat
    requires forall i :: 0 <= i < |s| ==> IsDigit(s[i])
  {
    if s == [] then 0 else 10 * DecimalValue(s[..|s| - 1]) + DigitValue(s[|s| - 1])
  }

  /** The decimal string of a count reads back as that count. */
  lemma {:induction false} DecimalRoundTrip(n: nat)
    ensures DecimalValue(Decimal(n)) == n
    decreases n
  {
    var s := Decimal(n);
    if n >= 10 {
      DecimalRoundTrip(n / 10);
      assert s[..|s| - 1] == Decimal(n / 10);
    }
  }

  function ChangedData(e: ChangedArgs): Context {
    [Entry("document", Text(e.documentPath)),
     Entry("deletedElements", Text(Decimal(e.deleted))),
     Entry("modifiedElements", Text(Decimal(e.modified))),
     Entry("addedElements", Text(Decimal(e.added)))]
  }

  /** DocChanged: one record with the document path and the three element counts, in that order. */
  function DocChanged(logger: bool, e: ChangedArgs): (out: seq<Record>)
    ensures out != [] <==> logger && e.isValidObject
    ensures out != [] ==> out == [DataRecord("Document Modified: {Data}", ChangedData(e))]
  {
    if !logger || !e.isValidObject then [] else [DataRecord("Document Modified: {Data}", ChangedData(e))]
  }

  /** Every count in a DocChanged record reads back as the count it reports. */
  lemma ChangedCountsReadBack(e: ChangedArgs)
    ensures var d := ChangedData(e);
      DecimalValue(d[1].value.s) == e.deleted &&
      DecimalValue(d[2].value.s) == e.modified &&
      DecimalValue(d[3].value.s) == e.added
  {
    DecimalRoundTrip(e.deleted);
    DecimalRoundTrip(e.modified);
    DecimalRoundTrip(e.added);
  }

  // ---------------------------------------------------------------------
  // UiButtonClicked: "\r\n" in the button text becomes " "
  // ---------------------------------------------------------------------

  predicate HasCrLfAt(s: string, i: int) {
    0 <= i < |s| - 1 && s[i] == '\r' && s[i + 1] == '\n'
  }

  predicate ContainsCrLf(s: string) {
    exists i :: 0 <= i < |s| && HasCrLfAt(s, i)
  }

  /** String.Replace("\r\n", " "): a left-to-right scan replacing each non-overlapping match. */
  function ReplaceCrLf(s: string): (r: string)
    ensures |r| <= |s|
    decreases |s|
  {
    if |s| < 2 then s
    else if s[0] == '\r' && s[1] == '\n' then " " + ReplaceCrLf(s[2..])
    else [s[0]] + ReplaceCrLf(s[1..])
  }

  /** The replacement keeps a non-empty text non-empty and never puts a line feed first that was not there. */
  lemma ReplaceKeepsLeadingChar(s: string)
    requires |s| > 0
    ensures |ReplaceCrLf(s)| > 0
    ensures ReplaceCrLf(s)[0] == '\n' ==> s[0] == '\n'
  {
  }

  /** No "\r\n" is left after the replacement. */
  lemma {:induction false} ReplaceLeavesNoCrLf(s: string)
    ensures !ContainsCrLf(ReplaceCrLf(s))
    decreases |s|
  {
    if |s| >= 2 {
      var r := ReplaceCrLf(s);
      if s[0] == '\r' && s[1] == '\n' {
        var rest := ReplaceCrLf(s[2..]);
        ReplaceLeavesNoCrLf(s[2..]);
        forall i | 0 <= i < |r| - 1 ensures !HasCrLfAt(r, i) {
          if i > 0 { assert !HasCrLfAt(rest, i - 1); }
        }
      } else {
        var rest := ReplaceCrLf(s[1..]);
        ReplaceLeavesNoCrLf(s[1..]);
        ReplaceKeepsLeadingChar(s[1..]);
        forall i | 0 <= i < |r| - 1 ensures !HasCrLfAt(r, i) {
          if i > 0 { assert !HasCrLfAt(rest, i - 1); }
        }
      }
    }
  }

  /** Text without "\r\n" is left exactly as it was. */
  lemma {:induction false} ReplaceKeepsPlainText(s: string)
    requires !ContainsCrLf(s)
    ensures ReplaceCrLf(s) == s
    decreases |s|
  {
    if |s| >= 2 {
      assert !HasCrLfAt(s, 0);
      assert !ContainsCrLf(s[1..]) by {
        forall i | 0 <= i < |s| - 2 ensures !HasCrLfAt(s[1..], i) {
          assert !HasCrLfAt(s, i + 1);
        }
      }
      ReplaceKeepsPlainText(s[1..]);
    }
  }

  /** Replacing twice is the same as replacing once. */
  lemma ReplaceIdempotent(s: string)
    ensures ReplaceCrLf(ReplaceCrLf(s)) == ReplaceCrLf(s)
  {
    ReplaceLeavesNoCrLf(s);
    ReplaceKeepsPlainText(ReplaceCrLf(s));
  }

  function ButtonRecord(item: RibbonItem): Record {
    Record("Button Clicked: {Data}", [Dict([
      Entry("buttonId", Text(ReplaceCrLf(item.text))),
      Entry("buttonName", Text(item.id))])])
  }

  /** UiButtonClicked: one record for a clicked item, none when there is no item. */
  function UiButtonClicked(logger: bool, e: ItemExecutedArgs): (out: seq<Record>)
    ensures out != [] <==> logger && e.item.Some?
    ensures out != [] ==> out == [ButtonRecord(e.item.value)]
  {
    if !logger || e.item.None? then [] else [ButtonRecord(e.item.value)]
  }

  /** The text logged for a click never holds "\r\n", and plain text is logged as it is. */
  lemma ButtonTextNormalised(item: RibbonItem)
    ensures !ContainsCrLf(ButtonRecord(item).props[0].entries[0].value.s)
    ensures !ContainsCrLf(item.text) ==> ButtonRecord(item).props[0].entries[0].value == Text(item.text)
  {
    ReplaceLeavesNoCrLf(item.text);
    if !ContainsCrLf(item.text) {
      ReplaceKeepsPlainText(item.text);
    }
  }
}
