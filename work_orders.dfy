/**
 * The work-order table of a mill: a list of orders, newest first, that the page creates (by
 * prepending), re-statuses and deletes by id, plus the draft form whose attachment list grows as
 * files are picked. The list shown is the orders filtered by status and by a case-insensitive
 * search, and the overview shows one count per status.
 */
module WorkOrders {
  import Text
  import PdfGenerator

  /** The four statuses of the overview, in display order. */
  const STATUSES: seq<string> := ["open", "in-progress", "completed", "on-hold"]

  /** The filter value that shows every status. */
  const ALL := "all"

  /** A picked file: the browser's `File`, of which only name, size and type are kept. */
  datatype PickedFile = PickedFile(name: string, size: nat, mime: string, lastModified: int)

  /** `{ name, size, type }` */
  datatype Attachment = Attachment(name: string, size: nat, mime: string)

  /** The new-order form. */
  datatype Draft = Draft(
    woNumber: string, openedBy: string, woDate: string, assetName: string, reason: string,
    priority: string, status: string, attachments: seq<Attachment>)

  /** A stored order: the form's fields plus the creation timestamp as id and the creation instant. */
  datatype WorkOrder = WorkOrder(
    woNumber: string, openedBy: string, woDate: string, assetName: string, reason: string,
    priority: string, status: string, attachments: seq<Attachment>, id: int, createdAt: string)

  // ---------------------------------------------------------------------------
  // Work-order numbers
  // ---------------------------------------------------------------------------

  /**
   * `genWONumber()`: "WO-", the clock reading `now` in upper-case base 36, "-", and the
   * three-digit serial drawn from `rand` (standing for `Math.random()`).
   */
  function WONumber(now: nat, rand: real): string
    requires 0.0 <= rand < 1.0
  {
    "WO-" + Text.ToUpper(Text.Base36(now)) + "-" + PdfGenerator.Serial3(PdfGenerator.Serial(rand))
  }

  /** A work-order number is "WO-", the clock reading in base 36, a dash and a three-character serial. */
  lemma WONumberShape(now: nat, rand: real)
    requires 0.0 <= rand < 1.0
    ensures var wo := WONumber(now, rand); var m := |Text.Base36(now)|;
      |wo| == m + 7 && wo[..3] == "WO-" && wo[m + 3] == '-'
  {
    PdfGenerator.Serial3Digits(PdfGenerator.Serial(rand));
    Pieces(Text.ToUpper(Text.Base36(now)), PdfGenerator.Serial3(PdfGenerator.Serial(rand)));
  }

  /** The clock reading appears in capitals: no lower-case letter is left in the middle. */
  lemma WONumberUpperCase(now: nat, rand: real)
    requires 0.0 <= rand < 1.0
    ensures var wo := WONumber(now, rand);
      |wo| > |Text.Base36(now)| + 3 && forall i | 3 <= i < |Text.Base36(now)| + 3 :: !('a' <= wo[i] <= 'z')
  {
    var up := Text.ToUpper(Text.Base36(now));
    Pieces(up, PdfGenerator.Serial3(PdfGenerator.Serial(rand)));
    var wo := WONumber(now, rand);
    forall i | 3 <= i < |up| + 3 ensures !('a' <= wo[i] <= 'z') {
      assert wo[i] == up[i - 3];
    }
  }

  /** The serial is always written with exactly three decimal digits. */
  lemma WONumberDigits(now: nat, rand: real)
    requires 0.0 <= rand < 1.0
    ensures var wo := WONumber(now, rand);
      |wo| >= 3 && forall i | |wo| - 3 <= i < |wo| :: Text.IsDecimalDigit(wo[i])
  {
    var up := Text.ToUpper(Text.Base36(now));
    var serial := PdfGenerator.Serial3(PdfGenerator.Serial(rand));
    PdfGenerator.Serial3Digits(PdfGenerator.Serial(rand));
    Pieces(up, serial);
    var wo := WONumber(now, rand);
    forall i | |wo| - 3 <= i < |wo| ensures Text.IsDecimalDigit(wo[i]) {
      assert wo[i] == serial[i - |wo| + 3];
    }
  }

  /** The clock reading can be read back from a work-order number: lower-case its middle and parse it in base 36. */
  lemma WONumberClock(now: nat, rand: real)
    requires 0.0 <= rand < 1.0
    ensures Text.FromRadix(Text.ToLower(WONumber(now, rand)[3..|Text.Base36(now)| + 3]), Text.BASE36_DIGITS) == now
  {
    var up := Text.ToUpper(Text.Base36(now));
    Text.UpperBase36ReadBack(now);
    Pieces(up, PdfGenerator.Serial3(PdfGenerator.Serial(rand)));
    assert |up| == |Text.Base36(now)|;
  }

  /** So can the serial, a number in 0..998: its last three characters parse to it. */
  lemma WONumberSerial(now: nat, rand: real)
    requires 0.0 <= rand < 1.0
    ensures var wo := WONumber(now, rand);
      |wo| >= 3 && Text.FromRadix(wo[|wo| - 3..], Text.DECIMAL_DIGITS) == PdfGenerator.Serial(rand) <= 998
  {
    var up := Text.ToUpper(Text.Base36(now));
    var serial := PdfGenerator.Serial3(PdfGenerator.Serial(rand));
    PdfGenerator.Serial3Digits(PdfGenerator.Serial(rand));
    PdfGenerator.Serial3Value(PdfGenerator.Serial(rand));
    Pieces(up, serial);
  }

  lemma Pieces(middle: string, serial: string)
    ensures var wo := "WO-" + middle + "-" + serial; var m := |middle|;
      && |wo| == m + 4 + |serial| && wo[..3] == "WO-" && wo[3..m + 3] == middle
      && wo[m + 3] == '-' && wo[m + 4..] == serial
  {
  }

  // ---------------------------------------------------------------------------
  // Creating an order
  // ---------------------------------------------------------------------------

  /** `form.openedBy && form.assetName && form.reason`: plain non-emptiness, with no trimming. */
  predicate Complete(form: Draft) {
    form.openedBy != "" && form.assetName != "" && form.reason != ""
  }

  /** `{ ...form, id: Date.now(), createdAt }` */
  function Created(form: Draft, now: nat, createdAt: string): (o: WorkOrder)
    ensures o.id == now && o.createdAt == createdAt && o.status == form.status && o.woNumber == form.woNumber
  {
    WorkOrder(form.woNumber, form.openedBy, form.woDate, form.assetName, form.reason,
              form.priority, form.status, form.attachments, now, createdAt)
  }

  /** The form fields an order was created from: everything but its id and creation instant. */
  function FormOf(o: WorkOrder): Draft {
    Draft(o.woNumber, o.openedBy, o.woDate, o.assetName, o.reason, o.priority, o.status, o.attachments)
  }

  /** Creating keeps the whole form: the order's form fields are the submitted form, its id the clock reading. */
  lemma CreatedKeepsForm(form: Draft, now: nat, createdAt: string)
    ensures FormOf(Created(form, now, createdAt)) == form
    ensures Created(form, now, createdAt).id == now && Created(form, now, createdAt).createdAt == createdAt
  {
  }

  /** The inputs of the new-order form; the number is read-only and attachments come from the file picker. */
  datatype DraftField = WoDate | OpenedBy | AssetName | Priority | Status | Reason

  /** `setForm(p => ({ ...p, [field]: value }))` */
  function WithField(d: Draft, field: DraftField, value: string): (r: Draft)
    ensures r.woNumber == d.woNumber && r.attachments == d.attachments
    ensures r.woDate == (if field == WoDate then value else d.woDate)
    ensures r.openedBy == (if field == OpenedBy then value else d.openedBy)
    ensures r.assetName == (if field == AssetName then value else d.assetName)
    ensures r.priority == (if field == Priority then value else d.priority)
    ensures r.status == (if field == Status then value else d.status)
    ensures r.reason == (if field == Reason then value else d.reason)
  {
    match field
    case WoDate => d.(woDate := value)
    case OpenedBy => d.(openedBy := value)
    case AssetName => d.(assetName := value)
    case Priority => d.(priority := value)
    case Status => d.(status := value)
    case Reason => d.(reason := value)
  }

  /** Typing the three required fields into a blank form makes it complete, whatever else is left as it was. */
  lemma FilledDraftComplete(woNumber: string, today: string, openedBy: string, assetName: string, reason: string)
    requires openedBy != "" && assetName != "" && reason != ""
    ensures Complete(WithField(WithField(WithField(BlankDraft(woNumber, today), OpenedBy, openedBy), AssetName, assetName), Reason, reason))
  {
  }

  /** The form as the page opens it and as it is reset after a creation. */
  function BlankDraft(woNumber: string, today: string): (d: Draft)
    ensures !Complete(d)
    ensures d.priority == "medium" && d.status == "open" && d.attachments == []
  {
    Draft(woNumber, "", today, "", "", "medium", "open", [])
  }

  /** Picking files in two batches lists the same attachments, in the same order, as picking them at once. */
  lemma {:induction false} AttachInBatches(first: seq<PickedFile>, second: seq<PickedFile>)
    ensures Listed(first + second) == Listed(first) + Listed(second)
  {
    assert forall i | 0 <= i < |first + second| :: Listed(first + second)[i] == (Listed(first) + Listed(second))[i];
  }

  /** `Array.from(files).map(f => ({ name: f.name, size: f.size, type: f.type }))` */
  function Listed(files: seq<PickedFile>): (r: seq<Attachment>)
    ensures |r| == |files|
    ensures forall i | 0 <= i < |r| :: r[i].name == files[i].name && r[i].size == files[i].size && r[i].mime == files[i].mime
  {
    seq(|files|, i requires 0 <= i < |files| => Attachment(files[i].name, files[i].size, files[i].mime))
  }

  // ---------------------------------------------------------------------------
  // Re-statusing and deleting by id
  // ---------------------------------------------------------------------------

  /** `orders.map(o => o.id === id ? { ...o, status } : o)` */
  function WithStatus(orders: seq<WorkOrder>, id: int, status: string): (r: seq<WorkOrder>)
    ensures |r| == |orders|
    ensures forall i | 0 <= i < |r| :: r[i] == if orders[i].id == id then orders[i].(status := status) else orders[i]
    decreases |orders|
  {
    if orders == [] then []
    else
      var head := if orders[0].id == id then orders[0].(status := status) else orders[0];
      [head] + WithStatus(orders[1..], id, status)
  }

  /** `orders.filter(o => o.id !== id)` */
  function Without(orders: seq<WorkOrder>, id: int): (r: seq<WorkOrder>)
    ensures forall o :: o in r <==> o in orders && o.id != id
    ensures |r| <= |orders|
    decreases |orders|
  {
    if orders == [] then []
    else if orders[0].id == id then Without(orders[1..], id)
    else [orders[0]] + Without(orders[1..], id)
  }

  /** `a` is `b` with some elements dropped and the rest in their order. */
  predicate IsSubsequence(a: seq<WorkOrder>, b: seq<WorkOrder>)
    decreases |b|
  {
    a == [] || (b != [] && ((a[0] == b[0] && IsSubsequence(a[1..], b[1..])) || IsSubsequence(a, b[1..])))
  }

  /** Deleting keeps the other orders in their order. */
  lemma {:induction false} WithoutKeepsOrder(orders: seq<WorkOrder>, id: int)
    ensures IsSubsequence(Without(orders, id), orders)
    decreases |orders|
  {
    if orders != [] {
      WithoutKeepsOrder(orders[1..], id);
      if orders[0].id != id {
        assert Without(orders, id)[1..] == Without(orders[1..], id);
      }
    }
  }

  /** The number of orders carrying this id. */
  function CountId(orders: seq<WorkOrder>, id: int): nat
    decreases |orders|
  {
    if orders == [] then 0 else (if orders[0].id == id then 1 else 0) + CountId(orders[1..], id)
  }

  /** Deleting removes exactly the orders with the id; deleting again changes nothing. */
  lemma {:induction false} WithoutRemovesExactly(orders: seq<WorkOrder>, id: int)
    ensures |Without(orders, id)| == |orders| - CountId(orders, id)
    ensures Without(Without(orders, id), id) == Without(orders, id)
    decreases |orders|
  {
    if orders != [] {
      WithoutRemovesExactly(orders[1..], id);
    }
  }

  /** Re-statusing an order and then deleting it leaves the same list as deleting it straight away. */
  lemma {:induction false} DeleteForgetsUpdate(orders: seq<WorkOrder>, id: int, status: string)
    ensures Without(WithStatus(orders, id, status), id) == Without(orders, id)
    decreases |orders|
  {
    if orders != [] {
      DeleteForgetsUpdate(orders[1..], id, status);
      assert WithStatus(orders, id, status)[1..] == WithStatus(orders[1..], id, status);
    }
  }

  /** Re-statusing keeps every id, and repeating it changes nothing. */
  lemma WithStatusIdempotent(orders: seq<WorkOrder>, id: int, status: string)
    ensures forall i | 0 <= i < |orders| :: WithStatus(orders, id, status)[i].id == orders[i].id
    ensures WithStatus(WithStatus(orders, id, status), id, status) == WithStatus(orders, id, status)
  {
    var once := WithStatus(orders, id, status);
    assert forall i | 0 <= i < |orders| :: WithStatus(once, id, status)[i] == once[i];
  }

  // ---------------------------------------------------------------------------
  // Filtering and counting
  // ---------------------------------------------------------------------------

  /** `filter === 'all' || o.status === filter` */
  predicate MatchesFilter(o: WorkOrder, filter: string) {
    filter == ALL || o.status == filter
  }

  /** The search box: empty keeps all, otherwise a case-insensitive substring of the number, asset or opener. */
  predicate MatchesSearch(o: WorkOrder, search: string) {
    var needle := Text.ToLower(search);
    search == ""
    || Text.Includes(Text.ToLower(o.woNumber), needle)
    || Text.Includes(Text.ToLower(o.assetName), needle)
    || Text.Includes(Text.ToLower(o.openedBy), needle)
  }

  /** `filtered` */
  function Filtered(orders: seq<WorkOrder>, filter: string, search: string): (r: seq<WorkOrder>)
    ensures forall o :: o in r <==> o in orders && MatchesFilter(o, filter) && MatchesSearch(o, search)
    ensures |r| <= |orders|
    decreases |orders|
  {
    if orders == [] then []
    else
      var rest := Filtered(orders[1..], filter, search);
      if MatchesFilter(orders[0], filter) && MatchesSearch(orders[0], search) then [orders[0]] + rest else rest
  }

  /** The table shows orders in their stored order. */
  lemma {:induction false} FilteredKeepsOrder(orders: seq<WorkOrder>, filter: string, search: string)
    ensures IsSubsequence(Filtered(orders, filter, search), orders)
    decreases |orders|
  {
    if orders != [] {
      FilteredKeepsOrder(orders[1..], filter, search);
      var r := Filtered(orders, filter, search);
      if r != [] && MatchesFilter(orders[0], filter) && MatchesSearch(orders[0], search) {
        assert r[1..] == Filtered(orders[1..], filter, search);
      }
    }
  }

  /** With filter "all" and an empty search every order is shown. */
  lemma {:induction false} ShowAll(orders: seq<WorkOrder>)
    ensures Filtered(orders, ALL, "") == orders
    decreases |orders|
  {
    if orders != [] {
      ShowAll(orders[1..]);
    }
  }

  /** The search ignores case: typing it in capitals shows the same orders. */
  lemma {:induction false} SearchIgnoresCase(orders: seq<WorkOrder>, filter: string, search: string)
    ensures Filtered(orders, filter, Text.ToUpper(search)) == Filtered(orders, filter, search)
    decreases |orders|
  {
    Text.LowerForgetsCase(search);
    assert Text.ToUpper(search) == "" <==> search == "";
    if orders != [] {
      SearchIgnoresCase(orders[1..], filter, search);
    }
  }

  /** `orders.filter(o => o.status === s).length` */
  function CountStatus(orders: seq<WorkOrder>, s: string): nat
    decreases |orders|
  {
    if orders == [] then 0 else (if orders[0].status == s then 1 else 0) + CountStatus(orders[1..], s)
  }

  /** `counts`: one entry per status of the overview. */
  function Counts(orders: seq<WorkOrder>): (c: map<string, nat>)
    ensures forall s :: s in c <==> s in STATUSES
  {
    map s | s in STATUSES :: CountStatus(orders, s)
  }

  /** The orders whose status is one of `statuses`. */
  function CountIn(orders: seq<WorkOrder>, statuses: seq<string>): (n: nat)
    ensures n <= |orders|
    ensures (forall i | 0 <= i < |orders| :: orders[i].status in statuses) ==> n == |orders|
    decreases |orders|
  {
    if orders == [] then 0
    else
      var n := (if orders[0].status in statuses then 1 else 0) + CountIn(orders[1..], statuses);
      assert forall i | 1 <= i < |orders| :: orders[1..][i - 1] == orders[i];
      n
  }

  /** The per-status counts of `statuses`, added up. */
  function SumCounts(orders: seq<WorkOrder>, statuses: seq<string>): nat
    decreases |statuses|
  {
    if statuses == [] then 0 else CountStatus(orders, statuses[0]) + SumCounts(orders, statuses[1..])
  }

  lemma {:induction false} CountInSplit(orders: seq<WorkOrder>, statuses: seq<string>)
    requires statuses != [] && statuses[0] !in statuses[1..]
    ensures CountIn(orders, statuses) == CountStatus(orders, statuses[0]) + CountIn(orders, statuses[1..])
    decreases |orders|
  {
    if orders != [] {
      CountInSplit(orders[1..], statuses);
      assert orders[0].status in statuses <==> orders[0].status == statuses[0] || orders[0].status in statuses[1..];
    }
  }

  /** For a list of distinct statuses, adding up their counts counts each order with one of them once. */
  lemma {:induction false} SumCountsDistinct(orders: seq<WorkOrder>, statuses: seq<string>)
    requires forall i, j | 0 <= i < j < |statuses| :: statuses[i] != statuses[j]
    ensures SumCounts(orders, statuses) == CountIn(orders, statuses)
    decreases |statuses|
  {
    if statuses == [] {
      CountInNone(orders);
    } else {
      assert forall i | 0 <= i < |statuses| - 1 :: statuses[1..][i] == statuses[i + 1];
      SumCountsDistinct(orders, statuses[1..]);
      CountInSplit(orders, statuses);
    }
  }

  lemma {:induction false} CountInNone(orders: seq<WorkOrder>)
    ensures CountIn(orders, []) == 0
    decreases |orders|
  {
    if orders != [] {
      CountInNone(orders[1..]);
    }
  }

  /** The overview's four counts add up to at most the number of orders, and to exactly that when every order has one of the four statuses. */
  lemma CountsAddUp(orders: seq<WorkOrder>)
    ensures var c := Counts(orders);
      && c["open"] + c["in-progress"] + c["completed"] + c["on-hold"] <= |orders|
      && ((forall i | 0 <= i < |orders| :: orders[i].status in STATUSES) ==>
            c["open"] + c["in-progress"] + c["completed"] + c["on-hold"] == |orders|)
  {
    SumCountsDistinct(orders, STATUSES);
    assert STATUSES[1..][1..][1..][1..] == [];
  }

  // ---------------------------------------------------------------------------
  // The page's state
  // ---------------------------------------------------------------------------

  /** The orders of one mill and the new-order form, as the page holds them. */
  class Board {
    var orders: seq<WorkOrder>
    var form: Draft

    /** The page opens with the stored orders and a blank form numbered `woNumber`. */
    constructor (stored: seq<WorkOrder>, woNumber: string, today: string)
      ensures orders == stored && form == BlankDraft(woNumber, today)
    {
      orders := stored;
      form := BlankDraft(woNumber, today);
    }

    /**
     * `handleSubmit`: an incomplete form changes nothing; otherwise the order built from the form
     * goes first, every earlier order follows unchanged and in order, and the form is reset with a
     * fresh number. `now` stands for `Date.now()`, read once for the id and the fresh number.
     */
    method Submit(now: nat, createdAt: string, rand: real, today: string) returns (created: bool)
      requires 0.0 <= rand < 1.0
      modifies this
      ensures created == Complete(old(form))
      ensures !created ==> orders == old(orders) && form == old(form)
      ensures created ==> orders == [Created(old(form), now, createdAt)] + old(orders)
      ensures created ==> form == BlankDraft(WONumber(now, rand), today)
    {
      if !Complete(form) {
        return false;
      }
      orders := [Created(form, now, createdAt)] + orders;
      form := BlankDraft(WONumber(now, rand), today);
      created := true;
    }

    /** `updateStatus(id, status)` */
    method UpdateStatus(id: int, status: string)
      modifies this`orders
      ensures orders == WithStatus(old(orders), id, status)
    {
      orders := WithStatus(orders, id, status);
    }

    /** `deleteOrder(id)` */
    method Delete(id: int)
      modifies this`orders
      ensures orders == Without(old(orders), id)
    {
      orders := Without(orders, id);
    }

    /** An input's `onChange`: the one field takes the typed value. */
    method Edit(field: DraftField, value: string)
      modifies this`form
      ensures form == WithField(old(form), field, value)
    {
      form := WithField(form, field, value);
    }

    /** `handleFiles(files)`: the picked files go after the attachments already listed. */
    method AttachFiles(files: seq<PickedFile>)
      modifies this`form
      ensures form == old(form).(attachments := old(form.attachments) + Listed(files))
    {
      form := form.(attachments := form.attachments + Listed(files));
    }
  }

  /** A new order is counted under its status and shown under its own status filter. */
  lemma {:induction false} CreatedIsShown(orders: seq<WorkOrder>, form: Draft, now: nat, createdAt: string)
    ensures var o := Created(form, now, createdAt);
      && CountStatus([o] + orders, form.status) == CountStatus(orders, form.status) + 1
      && Filtered([o] + orders, form.status, "") == [o] + Filtered(orders, form.status, "")
  {
    var all := [Created(form, now, createdAt)] + orders;
    assert all[1..] == orders;
  }
}
