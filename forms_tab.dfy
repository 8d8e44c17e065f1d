/**
 * The report forms of the Forms tab: each form keeps a record of field values that its inputs
 * replace one key at a time, checks its required fields in a fixed order when submitted (the first
 * one missing, or blank after `trim`, is reported and nothing is generated), and otherwise hands the
 * record to its PDF generator. Also the status-option lookup, the image-attachment rule and `cx`.
 */
module FormsTab {
  import opened Wrappers
  import opened FormData
  import Text
  import Canvas
  import PdfGenerator
  import ConditionMonitorReport
  import PostMaintenanceReport
  import RcfaReport
  import SafetyReport

  type ReportKind = PdfGenerator.ReportKind

  // ---------------------------------------------------------------------------
  // Required fields
  // ---------------------------------------------------------------------------

  /** A required field: the record key and the message shown when it is missing. */
  datatype Requirement = Requirement(key: string, message: string)

  /** The checks of each form's `handleSubmit`, in the order they run. */
  function Requirements(kind: ReportKind): seq<Requirement> {
    match kind
    case ConditionMonitor => [
      Requirement("technicianName", "Technician Name is required"),
      Requirement("assetName", "Asset Name is required"),
      Requirement("area", "Location is required"),
      Requirement("diagnosis", "Vibration Diagnosis is required"),
      Requirement("recommendation", "Recommendation is required")]
    case PostMaintenance => [
      Requirement("technicianName", "Technician Name is required"),
      Requirement("assetName", "Asset Name is required"),
      Requirement("maintenancePerformed", "Maintenance Performed is required")]
    case Rcfa => [
      Requirement("analystName", "Analyst Name is required"),
      Requirement("problemDescription", "Problem Description is required"),
      Requirement("rootCause", "Root Cause is required"),
      Requirement("correctiveActions", "Corrective Actions is required")]
    case Safety => [
      Requirement("employeeName", "Employee Name is required"),
      Requirement("taskDescription", "Task Description is required"),
      Requirement("hazards", "Hazards Identified is required"),
      Requirement("controlMeasures", "Control Measures is required")]
  }

  /**
   * `data.k?.trim()` is truthy: the field holds text with something besides white space
   * (`FilledIffTrimmed` ties this to `Text.Trim`).
   */
  predicate Filled(v: Value) {
    v.Str? && !Text.Blank(v.s)
  }

  lemma FilledIffTrimmed(v: Value)
    ensures Filled(v) <==> v.Str? && Text.Trim(v.s) != ""
  {
    if v.Str? {
      Text.BlankIffTrimEmpty(v.s);
    }
  }

  /** Requirement i is the first one not filled. */
  predicate FirstGapAt(data: Record, reqs: seq<Requirement>, i: int) {
    0 <= i < |reqs| && !Filled(Get(data, reqs[i].key))
    && forall j | 0 <= j < i :: Filled(Get(data, reqs[j].key))
  }

  /** The early-return chain: the message of the first requirement not filled, or nothing when all are. */
  function FirstMissing(data: Record, reqs: seq<Requirement>): Option<string>
    decreases |reqs|
  {
    if reqs == [] then None
    else if !Filled(Get(data, reqs[0].key)) then Some(reqs[0].message)
    else FirstMissing(data, reqs[1..])
  }

  /** The chain passes exactly when every requirement is filled. */
  lemma {:induction false} FirstMissingNone(data: Record, reqs: seq<Requirement>)
    ensures FirstMissing(data, reqs).None? <==> forall i | 0 <= i < |reqs| :: Filled(Get(data, reqs[i].key))
    decreases |reqs|
  {
    if reqs != [] && Filled(Get(data, reqs[0].key)) {
      FirstMissingNone(data, reqs[1..]);
      assert forall i | 1 <= i < |reqs| :: reqs[i] == reqs[1..][i - 1];
    }
  }

  /** When requirement i is the first one not filled, its message is the one reported, whatever the later ones hold. */
  lemma {:induction false} FirstMissingAt(data: Record, reqs: seq<Requirement>, i: nat)
    requires FirstGapAt(data, reqs, i)
    ensures FirstMissing(data, reqs) == Some(reqs[i].message)
    decreases i
  {
    if i > 0 {
      assert Filled(Get(data, reqs[0].key));
      var tail := reqs[1..];
      assert forall j | 0 <= j < i - 1 :: tail[j] == reqs[j + 1];
      FirstMissingAt(data, tail, i - 1);
    }
  }

  /** A reported message always belongs to the first requirement not filled. */
  lemma {:induction false} FirstMissingWitness(data: Record, reqs: seq<Requirement>) returns (i: nat)
    requires FirstMissing(data, reqs).Some?
    ensures FirstGapAt(data, reqs, i) && FirstMissing(data, reqs).value == reqs[i].message
    decreases |reqs|
  {
    if !Filled(Get(data, reqs[0].key)) {
      i := 0;
    } else {
      var tail := reqs[1..];
      var k := FirstMissingWitness(data, tail);
      i := k + 1;
      assert forall j | 1 <= j < i :: reqs[j] == tail[j - 1];
    }
  }

  /** The form's `handleSubmit` checks: the error message to show, or nothing when the form may be generated. */
  function Validate(kind: ReportKind, data: Record): Option<string> {
    FirstMissing(data, Requirements(kind))
  }

  /**
   * Once the checks pass, every required field is drawn as entered: the report never falls back to
   * its placeholder for one of them, whatever the placeholder.
   */
  lemma ValidatedFieldsShown(data: Record, reqs: seq<Requirement>)
    requires FirstMissing(data, reqs).None?
    ensures forall i, fallback | 0 <= i < |reqs| ::
      Get(data, reqs[i].key).Str? && Field(data, reqs[i].key, fallback) == Get(data, reqs[i].key).s != ""
  {
    FirstMissingNone(data, reqs);
    forall i | 0 <= i < |reqs| ensures Get(data, reqs[i].key).s != "" {
      assert Filled(Get(data, reqs[i].key));
    }
  }

  // ---------------------------------------------------------------------------
  // Initial records
  // ---------------------------------------------------------------------------

  /** The record each form starts from, `today` being the ISO date the date field is preset to. */
  function InitialData(kind: ReportKind, today: string): Record {
    match kind
    case ConditionMonitor => map[
      "date" := Str(today), "technicianName" := Str(""), "woNumber" := Str(""), "area" := Str(""),
      "assetId" := Str(""), "assetName" := Str(""), "vibrationLevel" := Str(""), "geLevel" := Str(""),
      "temperature" := Str(""), "diagnosis" := Str(""), "risk" := Str("high"), "statusCondition" := Str("alert"),
      "observations" := Str(""), "recommendation" := Str(""),
      "trendImage" := Null, "spectrumImage" := Null, "machineImage" := Null]
    case PostMaintenance => map[
      "maintenanceDate" := Str(today), "technicianName" := Str(""), "woNumber" := Str(""), "assetName" := Str(""),
      "assetId" := Str(""), "area" := Str(""), "maintenancePerformed" := Str(""), "vibrationBefore" := Str(""),
      "vibrationAfter" := Str(""), "tempBefore" := Str(""), "tempAfter" := Str(""), "partsReplaced" := Str(""),
      "notes" := Str("")]
    case Rcfa => map[
      "eventDate" := Str(today), "analystName" := Str(""), "woNumber" := Str(""), "failedComponent" := Str(""),
      "area" := Str(""), "problemDescription" := Str(""), "why1" := Str(""), "why2" := Str(""), "why3" := Str(""),
      "why4" := Str(""), "why5" := Str(""), "rootCause" := Str(""), "correctiveActions" := Str("")]
    case Safety => map[
      "date" := Str(today), "employeeName" := Str(""), "supervisor" := Str(""), "taskDescription" := Str(""),
      "area" := Str(""), "hazards" := Str(""), "controlMeasures" := Str(""),
      "hardHat" := Flag(false), "safetyGlasses" := Flag(false), "steelToeBoots" := Flag(false),
      "highVisVest" := Flag(false), "hearingProtection" := Flag(false), "gloves" := Flag(false),
      "fallProtection" := Flag(false), "faceShield" := Flag(false)]
  }

  /** A form submitted untouched is stopped at its first check: one lemma per form. */
  lemma FreshConditionReportRejected(today: string)
    ensures Validate(PdfGenerator.ConditionMonitor, InitialData(PdfGenerator.ConditionMonitor, today)) == Some("Technician Name is required")
  {
    assert Get(InitialData(PdfGenerator.ConditionMonitor, today), "technicianName") == Str("");
  }

  lemma FreshMaintenanceReportRejected(today: string)
    ensures Validate(PdfGenerator.PostMaintenance, InitialData(PdfGenerator.PostMaintenance, today)) == Some("Technician Name is required")
  {
    assert Get(InitialData(PdfGenerator.PostMaintenance, today), "technicianName") == Str("");
  }

  lemma FreshRcfaRejected(today: string)
    ensures Validate(PdfGenerator.Rcfa, InitialData(PdfGenerator.Rcfa, today)) == Some("Analyst Name is required")
  {
    assert Get(InitialData(PdfGenerator.Rcfa, today), "analystName") == Str("");
  }

  lemma FreshSafetyFormRejected(today: string)
    ensures Validate(PdfGenerator.Safety, InitialData(PdfGenerator.Safety, today)) == Some("Employee Name is required")
  {
    assert Get(InitialData(PdfGenerator.Safety, today), "employeeName") == Str("");
  }

  /** The condition report starts at status "alert" and risk "high": both badges start red. */
  lemma FreshConditionReportIsRed(today: string)
    ensures StatusOptionFor(Show(Get(InitialData(PdfGenerator.ConditionMonitor, today), "statusCondition"))).value == "alert"
    ensures PdfGenerator.StatusColor(ConditionMonitorReport.StatusText(InitialData(PdfGenerator.ConditionMonitor, today))) == PdfGenerator.RED
    ensures ConditionMonitorReport.RiskBadgeColor(InitialData(PdfGenerator.ConditionMonitor, today)) == PdfGenerator.RED
  {
    var data := InitialData(PdfGenerator.ConditionMonitor, today);
    assert Get(data, "statusCondition") == Str("alert");
    assert Get(data, "risk") == Str("high");
    AlertAndHighAreRed(data);
  }

  lemma AlertAndHighAreRed(data: Record)
    requires Get(data, "statusCondition") == Str("alert") && Get(data, "risk") == Str("high")
    ensures StatusOptionFor(Show(Get(data, "statusCondition"))).value == "alert"
    ensures PdfGenerator.StatusColor(ConditionMonitorReport.StatusText(data)) == PdfGenerator.RED
    ensures ConditionMonitorReport.RiskBadgeColor(data) == PdfGenerator.RED
  {
    StatusLookup("alert");
    assert ConditionMonitorReport.StatusText(data) == "alert";
    assert Field(data, "risk", "") == "high";
    AlertIsRed();
    HighIsRed();
  }

  lemma AlertIsRed()
    ensures PdfGenerator.StatusColor("alert") == PdfGenerator.RED
  {
    assert Text.ToLower("alert") == "alert";
  }

  lemma HighIsRed()
    ensures PdfGenerator.RiskColor("high") == PdfGenerator.RED
  {
    assert Text.ToLower("high") == "high";
  }

  /** No checklist item is ticked on a fresh safety form. */
  lemma FreshSafetyFormUnticked(today: string)
    ensures SafetyReport.CheckedCount(InitialData(PdfGenerator.Safety, today), SafetyReport.PPE_ITEMS) == 0
  {
    var data := InitialData(PdfGenerator.Safety, today);
    NoneChecked(data, SafetyReport.PPE_ITEMS);
  }

  lemma {:induction false} NoneChecked(data: Record, items: seq<SafetyReport.PpeItem>)
    requires forall i | 0 <= i < |items| :: !SafetyReport.Checked(data, items[i])
    ensures SafetyReport.CheckedCount(data, items) == 0
    decreases |items|
  {
    if items != [] {
      NoneChecked(data, items[..|items| - 1]);
    }
  }

  // ---------------------------------------------------------------------------
  // Status options
  // ---------------------------------------------------------------------------

  /** An entry of the status select: the stored value, its caption and its background and border colours. */
  datatype StatusOption = StatusOption(value: string, caption: string, bg: string, border: string)

  const STATUS_OPTIONS: seq<StatusOption> := [
    StatusOption("acceptable", "Acceptable", "#E8F5E9", "#2E7D32"),
    StatusOption("caution", "Caution", "#FFF8E1", "#B8860B"),
    StatusOption("alert", "Alert", "#FDECEA", "#C62828")]

  /** `options.find(o => o.value === value)`: the first entry with that value. */
  function FindStatus(options: seq<StatusOption>, value: string): (r: Option<StatusOption>)
    ensures r.None? <==> forall i | 0 <= i < |options| :: options[i].value != value
    ensures r.Some? ==> exists i | 0 <= i < |options| ::
      (options[i] == r.value && r.value.value == value && forall j | 0 <= j < i :: options[j].value != value)
    decreases |options|
  {
    if options == [] then None
    else if options[0].value == value then Some(options[0])
    else
      var r := FindStatus(options[1..], value);
      assert forall i | 1 <= i < |options| :: options[i] == options[1..][i - 1];
      r
  }

  /** `STATUS_OPTIONS.find(o => o.value === value) || STATUS_OPTIONS[2]`. */
  function StatusOptionFor(value: string): StatusOption {
    FindStatus(STATUS_OPTIONS, value).GetOr(STATUS_OPTIONS[2])
  }

  /** The lookup returns the entry with the given value, and the "alert" entry for any other value. */
  lemma StatusLookup(value: string)
    ensures value in ["acceptable", "caution", "alert"] ==> StatusOptionFor(value).value == value
    ensures value !in ["acceptable", "caution", "alert"] ==> StatusOptionFor(value) == STATUS_OPTIONS[2]
    ensures StatusOptionFor(value) in STATUS_OPTIONS
  {
    if value !in ["acceptable", "caution", "alert"] {
      assert forall i | 0 <= i < |STATUS_OPTIONS| :: STATUS_OPTIONS[i].value != value;
    }
  }

  // ---------------------------------------------------------------------------
  // Image attachments
  // ---------------------------------------------------------------------------

  /** What the handler sees of a dropped or chosen file: its MIME type (possibly absent) and size in bytes. */
  datatype FileInfo = FileInfo(mime: Option<string>, size: nat)

  datatype FileVerdict = Ignored | Rejected(message: string) | Accepted

  const IMAGE_PREFIX := "image/"
  const MAX_IMAGE_BYTES: nat := 6 * 1024 * 1024

  /** `ImageUpload.handleFile`: nothing without a file, then the type check, then the size check. */
  function ImageVerdict(file: Option<FileInfo>): FileVerdict {
    if file.None? then Ignored
    else if !(file.value.mime.Some? && IMAGE_PREFIX <= file.value.mime.value) then Rejected("Only image files are allowed")
    else if file.value.size > MAX_IMAGE_BYTES then Rejected("Image too large. Max 6 MB")
    else Accepted
  }

  /**
   * A file is read in exactly when it is present, its type starts with "image/" and it is at most
   * 6 MiB (6291456 bytes, that size itself included); the type is checked first.
   */
  lemma ImageAcceptance(file: Option<FileInfo>)
    ensures ImageVerdict(file) == Accepted <==>
      file.Some? && file.value.mime.Some? && IMAGE_PREFIX <= file.value.mime.value && file.value.size <= 6291456
    ensures ImageVerdict(file) == Ignored <==> file.None?
    ensures file.Some? && (file.value.mime.None? || !(IMAGE_PREFIX <= file.value.mime.value)) ==>
      ImageVerdict(file) == Rejected("Only image files are allowed")
  {
  }

  // ---------------------------------------------------------------------------
  // Record updates
  // ---------------------------------------------------------------------------

  /** `f(k)`: a text input stores its value under `k`. */
  function WithText(data: Record, k: string, value: string): (r: Record)
    ensures Get(r, k) == Str(value)
    ensures forall j | j != k :: Get(r, j) == Get(data, j)
  {
    data[k := Str(value)]
  }

  /** `fImg(k)`: an image slot stores a data URL, or `null` when the image is removed. */
  function WithImage(data: Record, k: string, url: Option<string>): (r: Record)
    ensures Get(r, k) == (if url.Some? then Str(url.value) else Null)
    ensures forall j | j != k :: Get(r, j) == Get(data, j)
  {
    data[k := if url.Some? then Str(url.value) else Null]
  }

  /** `toggle(k)`: the check box under `k` becomes the negation of its value's truthiness. */
  function Toggled(data: Record, k: string): (r: Record)
    ensures Truthy(Get(r, k)) == !Truthy(Get(data, k))
    ensures forall j | j != k :: Get(r, j) == Get(data, j)
  {
    data[k := Flag(!Truthy(Get(data, k)))]
  }

  /** Toggling twice restores a check box: its truthiness always, the record itself when the key held a flag. */
  lemma ToggleTwice(data: Record, k: string)
    ensures Truthy(Get(Toggled(Toggled(data, k), k), k)) == Truthy(Get(data, k))
    ensures k in data && data[k].Flag? ==> Toggled(Toggled(data, k), k) == data
  {
    if k in data && data[k].Flag? {
      assert Flag(Truthy(data[k])) == data[k];
    }
  }

  /** Toggling a checklist item flips whether the report ticks it, and no other item. */
  lemma ToggleFlipsTick(data: Record, item: SafetyReport.PpeItem, other: SafetyReport.PpeItem)
    ensures SafetyReport.Checked(Toggled(data, item.key), item) == !SafetyReport.Checked(data, item)
    ensures other.key != item.key ==> SafetyReport.Checked(Toggled(data, item.key), other) == SafetyReport.Checked(data, other)
  {
  }

  // ---------------------------------------------------------------------------
  // cx
  // ---------------------------------------------------------------------------

  /** `xs.filter(Boolean)`, as the strings `join` makes of them. */
  function Kept(xs: seq<Value>): (r: seq<string>)
    ensures |r| <= |xs|
    ensures forall i | 0 <= i < |r| :: r[i] != ""
    decreases |xs|
  {
    if xs == [] then []
    else
      var rest := Kept(xs[..|xs| - 1]);
      if Truthy(xs[|xs| - 1]) then rest + [Show(xs[|xs| - 1])] else rest
  }

  /** One part is kept, as its text, exactly when it is truthy: `null`, `false` and "" are dropped. */
  lemma KeptOne(x: Value)
    ensures Kept([x]) == if Truthy(x) then [Show(x)] else []
  {
    assert [x][..0] == [];
  }

  /** Filtering a concatenation filters each part in turn: every truthy part is kept, in its order. */
  lemma {:induction false} KeptAppend(a: seq<Value>, b: seq<Value>)
    ensures Kept(a + b) == Kept(a) + Kept(b)
    decreases |b|
  {
    if b != [] {
      assert (a + b)[..|a + b| - 1] == a + b[..|b| - 1];
      KeptAppend(a, b[..|b| - 1]);
    } else {
      assert a + b == a;
    }
  }

  /** `cx(...xs)`: the truthy class names joined with single spaces. */
  function Cx(xs: seq<Value>): string {
    Text.Join(Kept(xs), ' ')
  }

  /** `value && name`: the name when the value is truthy, otherwise the value itself. */
  function AndClass(value: Value, name: string): Value {
    if Truthy(value) then Str(name) else value
  }

  /** The drop zone's classes: "ft-drop", with "ft-dropActive" added exactly when an image is present. */
  lemma DropZoneClasses(value: Value)
    ensures Truthy(value) ==> Cx([Str("ft-drop"), AndClass(value, "ft-dropActive")]) == "ft-drop ft-dropActive"
    ensures !Truthy(value) ==> Cx([Str("ft-drop"), AndClass(value, "ft-dropActive")]) == "ft-drop"
  {
    var kept := DropZoneKept(value);
    if Truthy(value) {
      assert kept[1..] == ["ft-dropActive"];
      assert Text.Join(kept, ' ') == kept[0] + [' '] + Text.Join(kept[1..], ' ');
      assert Text.Join(["ft-dropActive"], ' ') == "ft-dropActive";
      assert "ft-drop" + [' '] + "ft-dropActive" == "ft-drop ft-dropActive";
    }
  }

  /** When something is kept and no kept name holds a space, splitting `cx`'s result on spaces gives back the names. */
  lemma CxSplits(xs: seq<Value>)
    requires Kept(xs) != []
    requires forall i | 0 <= i < |Kept(xs)| :: ' ' !in Kept(xs)[i]
    ensures Text.Split(Cx(xs), ' ') == Kept(xs)
  {
    Text.SplitJoin(Kept(xs), ' ');
  }

  lemma DropZoneKept(value: Value) returns (kept: seq<string>)
    ensures kept == Kept([Str("ft-drop"), AndClass(value, "ft-dropActive")])
    ensures kept == if Truthy(value) then ["ft-drop", "ft-dropActive"] else ["ft-drop"]
  {
    var xs := [Str("ft-drop"), AndClass(value, "ft-dropActive")];
    assert xs[..1] == [Str("ft-drop")];
    assert [Str("ft-drop")][..0] == [];
    assert Kept([Str("ft-drop")]) == ["ft-drop"];
    kept := Kept(xs);
  }

  /** Nothing is kept exactly when no part is truthy, and then `cx` gives the empty class list. */
  lemma {:induction false} CxEmpty(xs: seq<Value>)
    ensures Kept(xs) == [] <==> forall i | 0 <= i < |xs| :: !Truthy(xs[i])
    ensures (forall i | 0 <= i < |xs| :: !Truthy(xs[i])) ==> Cx(xs) == ""
    decreases |xs|
  {
    if xs != [] {
      var init := xs[..|xs| - 1];
      CxEmpty(init);
      assert forall i | 0 <= i < |init| :: init[i] == xs[i];
    }
  }

  // ---------------------------------------------------------------------------
  // The form
  // ---------------------------------------------------------------------------

  /** The toast a submission shows. */
  datatype Toast = Error(message: string) | Success(message: string)

  /** The body of the report of a given kind. */
  function BodyFor(kind: ReportKind, metrics: Canvas.Metrics, data: Record, id: string, today: string): seq<Canvas.Command> {
    match kind
    case ConditionMonitor => ConditionMonitorReport.Body(metrics, data, id, today)
    case PostMaintenance => PostMaintenanceReport.Body(metrics, data)
    case Rcfa => RcfaReport.Body(metrics, data)
    case Safety => SafetyReport.Body(metrics, data)
  }

  /** One open report form: its kind and the record its inputs edit. */
  class ReportForm {
    const kind: ReportKind
    var data: Record

    /** `useState({...})`: the form's initial record. */
    constructor (kind: ReportKind, today: string)
      ensures this.kind == kind && data == InitialData(kind, today)
    {
      this.kind := kind;
      data := InitialData(kind, today);
    }

    /** `f(k)(e)` */
    method SetText(k: string, value: string)
      modifies this`data
      ensures data == WithText(old(data), k, value)
    {
      data := data[k := Str(value)];
    }

    /** `fImg(k)(val)` */
    method SetImage(k: string, url: Option<string>)
      modifies this`data
      ensures data == WithImage(old(data), k, url)
    {
      data := data[k := if url.Some? then Str(url.value) else Null];
    }

    /** `toggle(k)` */
    method Toggle(k: string)
      modifies this`data
      ensures data == Toggled(old(data), k)
    {
      data := data[k := Flag(!Truthy(Get(data, k)))];
    }

    /**
     * `ImageUpload.handleFile(file)` for the image slot `k`; `url` stands for the data URL the file
     * reader produces. The record changes only when the file is accepted.
     */
    method AttachImage(k: string, file: Option<FileInfo>, url: string) returns (verdict: FileVerdict)
      modifies this`data
      ensures verdict == ImageVerdict(file)
      ensures data == if verdict == Accepted then WithImage(old(data), k, Some(url)) else old(data)
    {
      verdict := ImageVerdict(file);
      if verdict == Accepted {
        SetImage(k, Some(url));
      }
    }

    /**
     * `handleSubmit`: the checks, then the generator. `rand`, `year`, `stamp` and `today` stand for
     * `Math.random()`, the year and the dates the generator reads; `throws` says whether the foreign
     * drawing library fails. Returns the toast, whether the form closes, and the page saved (none when
     * nothing was generated).
     */
    method Submit(millName: string, metrics: Canvas.Metrics, rand: real, year: nat, stamp: string, today: string, throws: bool)
      returns (toast: Toast, closed: bool, page: seq<Canvas.Command>)
      requires 0.0 <= rand < 1.0
      ensures Validate(kind, data).Some? ==> toast == Error(Validate(kind, data).value) && !closed && page == []
      ensures Validate(kind, data).None? && throws ==> toast == Error("PDF generation failed") && !closed && page == []
      ensures Validate(kind, data).None? && !throws ==>
        var id := PdfGenerator.DocId(kind, rand, year);
        && toast == Success("PDF generated: " + id) && closed
        && page == PdfGenerator.PageCommands(metrics, kind, millName, id, stamp, BodyFor(kind, metrics, data, id, today))
    {
      var missing := Validate(kind, data);
      if missing.Some? {
        return Error(missing.value), false, [];
      }
      if throws {
        return Error("PDF generation failed"), false, [];
      }
      var id;
      id, page := GenerateReport(kind, data, millName, metrics, rand, year, stamp, today);
      toast := Success("PDF generated: " + id);
      closed := true;
    }
  }

  /** Calls the generator of the given kind and returns the id and the finished page. */
  method GenerateReport(kind: ReportKind, data: Record, millName: string, metrics: Canvas.Metrics, rand: real, year: nat, stamp: string, today: string)
    returns (id: string, page: seq<Canvas.Command>)
    requires 0.0 <= rand < 1.0
    ensures id == PdfGenerator.DocId(kind, rand, year)
    ensures page == PdfGenerator.PageCommands(metrics, kind, millName, id, stamp, BodyFor(kind, metrics, data, id, today))
  {
    var doc: Canvas.Doc;
    match kind {
      case ConditionMonitor =>
        id, doc := ConditionMonitorReport.Generate(data, millName, metrics, rand, year, stamp, today);
      case PostMaintenance =>
        id, doc := PostMaintenanceReport.Generate(data, millName, metrics, rand, year, stamp);
      case Rcfa =>
        id, doc := RcfaReport.Generate(data, millName, metrics, rand, year, stamp);
      case Safety =>
        id, doc := SafetyReport.Generate(data, millName, metrics, rand, year, stamp);
    }
    page := doc.log;
  }
}
