/**
 * The route-drawing browser of the Drawings tab: a three-level tree (area, subarea, floor) per mill,
 * a selection that the sidebar's buttons open and close one level at a time, the lookup of the one
 * drawing that exists, and the floor map's asset colours and tooltip placement.
 */
module DrawingsTab {
  import opened Wrappers

  // ---------------------------------------------------------------------------
  // The area tree
  // ---------------------------------------------------------------------------

  /** A named entry of the tree and what it lists, in the order the sidebar shows them (an object's own keys). */
  datatype Branch<C> = Branch(name: string, items: seq<C>)

  /** A subarea and its floors. */
  type SubareaNode = Branch<string>

  /** An area and its subareas. */
  type AreaNode = Branch<SubareaNode>

  /** The Pulp area of the Clearwater Augusta mill. */
  const PULP: seq<SubareaNode> := [
    Branch("Pulp 2", ["Ground Floor", "Upper Floor"]),
    Branch("Pulp 3", ["Ground Floor 1", "Outside", "Ground Floor 2", "5th Floor", "Bleach Floor", "6th Floor / Roof"]),
    Branch("Chemical Area", ["Ground Floor", "Upper Level"]),
    Branch("Lime Kiln", ["Ground Level", "Platform"]),
    Branch("Woodyard", ["Ground Level"])]

  const CLEARWATER_AUGUSTA: seq<AreaNode> := [
    Branch("Pulp", PULP),
    Branch("Power", [
      Branch("Boiler House", ["Ground Floor", "Mid Level", "Top Level"]),
      Branch("Turbine Hall", ["Ground Floor"])]),
    Branch("PM1", [
      Branch("Wet End", ["Ground Floor", "Mezzanine"]),
      Branch("Dry End", ["Ground Floor", "Mezzanine"])]),
    Branch("PM3", [
      Branch("Wet End", ["Ground Floor", "Mezzanine"]),
      Branch("Dry End", ["Ground Floor", "Mezzanine"])])]

  const GPI_MACON: seq<AreaNode> := [
    Branch("PM1", [
      Branch("Mezzanine", ["Level 1", "Level 2"]),
      Branch("Basement", ["Ground"]),
      Branch("Drive Side", ["Floor 1", "Floor 2"])]),
    Branch("Utilities", [
      Branch("Air Compressors", ["Ground Floor"]),
      Branch("Water Treatment", ["Ground Floor"])])]

  const NEWINDY_CATAWBA: seq<AreaNode> := [
    Branch("PM1", [
      Branch("Wet End", ["Ground Floor", "Mezzanine"]),
      Branch("Press Section", ["Ground Floor"]),
      Branch("Dry End", ["Ground Floor", "Mezzanine"])]),
    Branch("Stock Prep", [
      Branch("Refiners", ["Ground Floor"]),
      Branch("Cleaners", ["Ground Floor", "Upper"])])]

  /** `AREA_TREE[millId] || {}`: the tree of a mill, empty for a mill it does not list. */
  function AreaTree(millId: string): seq<AreaNode> {
    if millId == "clearwater-augusta" then CLEARWATER_AUGUSTA
    else if millId == "gpi-macon" then GPI_MACON
    else if millId == "newindy-catawba" then NEWINDY_CATAWBA
    else []
  }

  /** The buttons of one level, `Object.keys(...)`: one per entry, labelled with its name. */
  function Names<C>(nodes: seq<Branch<C>>): (r: seq<string>)
    ensures |r| == |nodes| && forall i | 0 <= i < |r| :: r[i] == nodes[i].name
  {
    seq(|nodes|, i requires 0 <= i < |nodes| => nodes[i].name)
  }

  /**
   * `tree[area]`, `tree[area][sub]`: what the entry called `name` lists. A name the level does not
   * list has nothing under it; a listed one gives the items of an entry of that name.
   */
  function ItemsOf<C>(nodes: seq<Branch<C>>, name: string): (r: seq<C>)
    ensures name !in Names(nodes) ==> r == []
    ensures name in Names(nodes) ==> exists i | 0 <= i < |nodes| :: nodes[i].name == name && r == nodes[i].items
    decreases |nodes|
  {
    if nodes == [] then []
    else if nodes[0].name == name then nodes[0].items
    else
      var r := ItemsOf(nodes[1..], name);
      assert Names(nodes[1..]) == Names(nodes)[1..];
      assert name in Names(nodes) ==> name in Names(nodes[1..]);
      assert forall i | 0 <= i < |nodes[1..]| :: nodes[1..][i] == nodes[i + 1];
      r
  }

  /** Every name is listed once, as the keys of a JavaScript object are. */
  predicate Distinct(names: seq<string>) {
    forall i, j | 0 <= i < j < |names| :: names[i] != names[j]
  }

  /** With distinct names, looking up the name of an entry finds exactly that entry's items. */
  lemma {:induction false} LookupListed<C>(nodes: seq<Branch<C>>, i: nat)
    requires Distinct(Names(nodes)) && i < |nodes|
    ensures ItemsOf(nodes, nodes[i].name) == nodes[i].items
    decreases |nodes|
  {
    if i > 0 {
      assert Names(nodes)[0] != Names(nodes)[i];
      assert Names(nodes[1..]) == Names(nodes)[1..];
      LookupListed(nodes[1..], i - 1);
    }
  }

  /** A level of the tree lists each name once, as the keys of a JavaScript object are, and no name holds a dash. */
  predicate WellKeyed<C>(nodes: seq<Branch<C>>) {
    Distinct(Names(nodes)) && forall n | n in Names(nodes) :: NoDash(n)
  }

  /** Every level of a tree is well keyed: its areas, and the subareas of each area. */
  predicate TreeWellKeyed(tree: seq<AreaNode>) {
    WellKeyed(tree) && forall i | 0 <= i < |tree| :: WellKeyed(tree[i].items)
  }

  // ---------------------------------------------------------------------------
  // The selection and its three transitions
  // ---------------------------------------------------------------------------

  /** `{ area, subarea, floor }`, each `null` until chosen. */
  datatype Selection = Selection(area: Option<string>, subarea: Option<string>, floor: Option<string>)

  const NOTHING_SELECTED := Selection(None, None, None)

  /** A floor is only chosen under a chosen subarea, and a subarea only under a chosen area. */
  predicate Nested(s: Selection) {
    (s.floor.Some? ==> s.subarea.Some?) && (s.subarea.Some? ==> s.area.Some?)
  }

  /** Every chosen name is one the tree lists at that place. */
  predicate InTree(tree: seq<AreaNode>, s: Selection) {
    && (s.area.Some? ==> s.area.value in Names(tree))
    && (s.area.Some? && s.subarea.Some? ==> s.subarea.value in Names(ItemsOf(tree, s.area.value)))
    && (s.area.Some? && s.subarea.Some? && s.floor.Some? ==>
          s.floor.value in ItemsOf(ItemsOf(tree, s.area.value), s.subarea.value))
  }

  /** An area button: the open area closes, any other opens; the subarea and the floor are cleared. */
  function AfterArea(s: Selection, area: string): (r: Selection)
    ensures Nested(r) && r.subarea.None? && r.floor.None?
    ensures r.area.None? <==> s.area == Some(area)
    ensures r.area.Some? ==> r.area.value == area
  {
    Selection(if s.area == Some(area) then None else Some(area), None, None)
  }

  /** A subarea button: the area is kept, the open subarea closes, any other opens; the floor is cleared. */
  function AfterSubarea(s: Selection, area: string, sub: string): (r: Selection)
    ensures Nested(r) && r.area == Some(area) && r.floor.None?
    ensures r.subarea.None? <==> s.subarea == Some(sub)
    ensures r.subarea.Some? ==> r.subarea.value == sub
  {
    Selection(Some(area), if s.subarea == Some(sub) then None else Some(sub), None)
  }

  /** A floor button: all three levels are set at once. */
  function AfterFloor(area: string, sub: string, floor: string): (r: Selection)
    ensures Nested(r) && r.area == Some(area) && r.subarea == Some(sub) && r.floor == Some(floor)
  {
    Selection(Some(area), Some(sub), Some(floor))
  }

  /** Buttons are only drawn for names the tree lists under the open levels, so clicking them keeps the selection in the tree. */
  lemma ClicksStayInTree(tree: seq<AreaNode>, s: Selection, area: string, sub: string, floor: string)
    requires InTree(tree, s)
    ensures area in Names(tree) ==> InTree(tree, AfterArea(s, area))
    ensures s.area == Some(area) && sub in Names(ItemsOf(tree, area)) ==>
      InTree(tree, AfterSubarea(s, area, sub))
    ensures s.area == Some(area) && s.subarea == Some(sub) && floor in ItemsOf(ItemsOf(tree, area), sub) ==>
      InTree(tree, AfterFloor(area, sub, floor))
  {
  }

  // ---------------------------------------------------------------------------
  // Drawings
  // ---------------------------------------------------------------------------

  /** How a template literal writes a possibly-null name. */
  function Part(name: Option<string>): string {
    if name.Some? then name.value else "null"
  }

  /** `${millId}-${area}-${subarea}-${floor}` */
  function DrawingKey(millId: string, s: Selection): string {
    millId + "-" + Part(s.area) + "-" + Part(s.subarea) + "-" + Part(s.floor)
  }

  /** The one key `HAS_DRAWING` lists. */
  const PULP3_FIFTH_FLOOR := "clearwater-augusta-Pulp-Pulp 3-5th Floor"

  /** `HAS_DRAWING[key]` is truthy. */
  predicate HasDrawing(key: string) {
    key == PULP3_FIFTH_FLOOR
  }

  /** What the drawing area shows. */
  datatype View = Placeholder | Drawing | Pending

  /** `!selected.floor ? placeholder : hasDrawing ? map : "drawing pending"` */
  function ViewOf(millId: string, s: Selection): (v: View)
    ensures v == Placeholder <==> s.floor.None?
  {
    if s.floor.None? then Placeholder
    else if HasDrawing(DrawingKey(millId, s)) then Drawing
    else Pending
  }

  /** Neither `s` nor any of the names holds a dash. */
  predicate NoDash(s: string) {
    '-' !in s
  }

  /** Two dash-terminated prefixes without a dash of their own can only be equal along with what follows them. */
  lemma DashSplit(x: string, rest: string, y: string, rest2: string)
    requires NoDash(x) && NoDash(y)
    requires x + "-" + rest == y + "-" + rest2
    ensures x == y && rest == rest2
  {
    var a := x + "-" + rest;
    var b := y + "-" + rest2;
    DashAt(x, rest);
    DashAt(y, rest2);
    if |x| < |y| {
      assert false;
    } else if |y| < |x| {
      assert false;
    } else {
      assert x == a[..|x|] && y == b[..|y|];
      assert rest == a[|x| + 1..] && rest2 == b[|y| + 1..];
    }
  }

  /** In `x-rest`, the first dash is the one after `x` when `x` holds none. */
  lemma DashAt(x: string, rest: string)
    requires NoDash(x)
    ensures var a := x + "-" + rest; a[|x|] == '-' && forall i | 0 <= i < |x| :: a[i] == x[i] != '-'
  {
  }

  /** Under one mill id, keys whose names hold no dash are equal only for equal names. */
  lemma KeyParts(millId: string, a: string, b: string, f: string, a2: string, b2: string, f2: string)
    requires NoDash(a) && NoDash(b) && NoDash(a2) && NoDash(b2)
    requires millId + "-" + a + "-" + b + "-" + f == millId + "-" + a2 + "-" + b2 + "-" + f2
    ensures a == a2 && b == b2 && f == f2
  {
    var key := millId + "-" + a + "-" + b + "-" + f;
    var key2 := millId + "-" + a2 + "-" + b2 + "-" + f2;
    var n := |millId| + 1;
    assert key[n..] == a + "-" + (b + "-" + f);
    assert key2[n..] == a2 + "-" + (b2 + "-" + f2);
    DashSplit(a, b + "-" + f, a2, b2 + "-" + f2);
    DashSplit(b, f, b2, f2);
  }

  /** The key that `HAS_DRAWING` lists, taken apart. */
  lemma DrawingKeyParts()
    ensures PULP3_FIFTH_FLOOR == "clearwater-augusta" + "-" + "Pulp" + "-" + "Pulp 3" + "-" + "5th Floor"
    ensures NoDash("Pulp") && NoDash("Pulp 3") && NoDash("null")
  {
  }

  /** A name that prints as a given non-"null" text is that text. */
  lemma PartOf(name: Option<string>, text: string)
    requires Part(name) == text && text != "null"
    ensures name == Some(text)
  {
  }

  /**
   * For the mill that has a drawing, and area and subarea names without dashes (every such name of
   * its tree, and "null"),
   * the drawing is found exactly when Pulp › Pulp 3 › 5th Floor is selected.
   */
  lemma DrawingOnlyForPulp3FifthFloor(s: Selection)
    requires NoDash(Part(s.area)) && NoDash(Part(s.subarea))
    ensures HasDrawing(DrawingKey("clearwater-augusta", s)) <==> s == Selection(Some("Pulp"), Some("Pulp 3"), Some("5th Floor"))
  {
    DrawingKeyParts();
    if HasDrawing(DrawingKey("clearwater-augusta", s)) {
      KeyParts("clearwater-augusta", Part(s.area), Part(s.subarea), Part(s.floor), "Pulp", "Pulp 3", "5th Floor");
      PartOf(s.area, "Pulp");
      PartOf(s.subarea, "Pulp 3");
      PartOf(s.floor, "5th Floor");
    }
  }

  /** The other two mills have no drawing, whatever is selected. */
  lemma OtherMillsHaveNoDrawing(s: Selection)
    ensures !HasDrawing(DrawingKey("gpi-macon", s)) && !HasDrawing(DrawingKey("newindy-catawba", s))
  {
    assert DrawingKey("gpi-macon", s)[0] == 'g';
    assert DrawingKey("newindy-catawba", s)[0] == 'n';
    assert PULP3_FIFTH_FLOOR[0] == 'c';
  }

  /** A mill with no entry in the tree shows no area at all. */
  lemma UnknownMillEmpty(millId: string)
    requires millId != "clearwater-augusta" && millId != "gpi-macon" && millId != "newindy-catawba"
    ensures AreaTree(millId) == [] && Names(AreaTree(millId)) == []
  {
  }

  /** Each mill's tree lists its areas once each and each area its subareas once each, and no such name holds a dash. */
  lemma TreeKeysDistinct(millId: string)
    ensures TreeWellKeyed(AreaTree(millId))
  {
    ClearwaterKeys();
    MaconKeys();
    CatawbaKeys();
  }

  /** A level whose names are a given list is well keyed when that list is. */
  lemma Level<C>(nodes: seq<Branch<C>>, names: seq<string>)
    requires Names(nodes) == names && Distinct(names) && forall n | n in names :: NoDash(n)
    ensures WellKeyed(nodes)
  {
  }

  lemma ClearwaterKeys()
    ensures TreeWellKeyed(CLEARWATER_AUGUSTA)
  {
    ClearwaterAreaKeys();
    PulpKeys();
    PowerKeys();
    ClearwaterPM1Keys();
    ClearwaterPM3Keys();
    assert |CLEARWATER_AUGUSTA| == 4;
  }

  lemma ClearwaterAreaKeys()
    ensures WellKeyed(CLEARWATER_AUGUSTA)
  {
    Level(CLEARWATER_AUGUSTA, ["Pulp", "Power", "PM1", "PM3"]);
  }

  lemma PulpKeys()
    ensures WellKeyed(CLEARWATER_AUGUSTA[0].items)
  {
    Level(CLEARWATER_AUGUSTA[0].items, ["Pulp 2", "Pulp 3", "Chemical Area", "Lime Kiln", "Woodyard"]);
  }

  lemma PowerKeys()
    ensures WellKeyed(CLEARWATER_AUGUSTA[1].items)
  {
    Level(CLEARWATER_AUGUSTA[1].items, ["Boiler House", "Turbine Hall"]);
  }

  lemma ClearwaterPM1Keys()
    ensures WellKeyed(CLEARWATER_AUGUSTA[2].items)
  {
    Level(CLEARWATER_AUGUSTA[2].items, ["Wet End", "Dry End"]);
  }

  lemma ClearwaterPM3Keys()
    ensures WellKeyed(CLEARWATER_AUGUSTA[3].items)
  {
    Level(CLEARWATER_AUGUSTA[3].items, ["Wet End", "Dry End"]);
  }

  lemma MaconKeys()
    ensures TreeWellKeyed(GPI_MACON)
  {
    MaconAreaKeys();
    MaconPM1Keys();
    UtilitiesKeys();
    assert |GPI_MACON| == 2;
  }

  lemma MaconAreaKeys()
    ensures WellKeyed(GPI_MACON)
  {
    Level(GPI_MACON, ["PM1", "Utilities"]);
  }

  lemma MaconPM1Keys()
    ensures WellKeyed(GPI_MACON[0].items)
  {
    Level(GPI_MACON[0].items, ["Mezzanine", "Basement", "Drive Side"]);
  }

  lemma UtilitiesKeys()
    ensures WellKeyed(GPI_MACON[1].items)
  {
    Level(GPI_MACON[1].items, ["Air Compressors", "Water Treatment"]);
  }

  lemma CatawbaKeys()
    ensures TreeWellKeyed(NEWINDY_CATAWBA)
  {
    CatawbaAreaKeys();
    CatawbaPM1Keys();
    StockPrepKeys();
    assert |NEWINDY_CATAWBA| == 2;
  }

  lemma CatawbaAreaKeys()
    ensures WellKeyed(NEWINDY_CATAWBA)
  {
    Level(NEWINDY_CATAWBA, ["PM1", "Stock Prep"]);
  }

  lemma CatawbaPM1Keys()
    ensures WellKeyed(NEWINDY_CATAWBA[0].items)
  {
    Level(NEWINDY_CATAWBA[0].items, ["Wet End", "Press Section", "Dry End"]);
  }

  lemma StockPrepKeys()
    ensures WellKeyed(NEWINDY_CATAWBA[1].items)
  {
    Level(NEWINDY_CATAWBA[1].items, ["Refiners", "Cleaners"]);
  }

  /** Every name a nested selection inside a mill's tree can print into the drawing key is free of dashes. */
  lemma TreeNamesDashFree(millId: string, s: Selection)
    requires Nested(s) && InTree(AreaTree(millId), s)
    ensures NoDash(Part(s.area)) && NoDash(Part(s.subarea))
  {
    var tree := AreaTree(millId);
    TreeKeysDistinct(millId);
    assert NoDash("null");
    if s.area.Some? && s.subarea.Some? {
      var k :| 0 <= k < |tree| && tree[k].name == s.area.value && ItemsOf(tree, s.area.value) == tree[k].items;
      assert WellKeyed(tree[k].items);
      assert s.subarea.value in Names(tree[k].items);
    }
  }

  /** For every selection the Clearwater Augusta sidebar can make, the drawing is found exactly at Pulp › Pulp 3 › 5th Floor. */
  lemma DrawingIffPulp3FifthFloor(s: Selection)
    requires Nested(s) && InTree(AreaTree("clearwater-augusta"), s)
    ensures HasDrawing(DrawingKey("clearwater-augusta", s)) <==> s == Selection(Some("Pulp"), Some("Pulp 3"), Some("5th Floor"))
  {
    TreeNamesDashFree("clearwater-augusta", s);
    DrawingOnlyForPulp3FifthFloor(s);
  }

  // ---------------------------------------------------------------------------
  // The sidebar as a state machine
  // ---------------------------------------------------------------------------

  /** The sidebar of one mill and its current selection. */
  class Sidebar {
    const millId: string
    const tree: seq<AreaNode>
    var selected: Selection

    predicate Valid()
      reads this
    {
      tree == AreaTree(millId) && Nested(selected) && InTree(tree, selected)
    }

    /** The tab opens with nothing selected and the placeholder shown. */
    constructor (millId: string)
      ensures this.millId == millId && selected == NOTHING_SELECTED && Valid()
      ensures ViewOf(millId, selected) == Placeholder
    {
      this.millId := millId;
      tree := AreaTree(millId);
      selected := NOTHING_SELECTED;
    }

    /** Clicking an area button (one is drawn for each area of the tree). */
    method ClickArea(area: string)
      requires Valid() && area in Names(tree)
      modifies this`selected
      ensures Valid() && selected == AfterArea(old(selected), area)
    {
      ClicksStayInTree(tree, selected, area, "", "");
      selected := AfterArea(selected, area);
    }

    /** Clicking a subarea button (drawn only under the open area). */
    method ClickSubarea(area: string, sub: string)
      requires Valid() && selected.area == Some(area) && sub in Names(ItemsOf(tree, area))
      modifies this`selected
      ensures Valid() && selected == AfterSubarea(old(selected), area, sub)
    {
      ClicksStayInTree(tree, selected, area, sub, "");
      selected := AfterSubarea(selected, area, sub);
    }

    /** Clicking a floor button (drawn only under the open subarea). */
    method ClickFloor(area: string, sub: string, floor: string)
      requires Valid() && selected.area == Some(area) && selected.subarea == Some(sub)
      requires floor in ItemsOf(ItemsOf(tree, area), sub)
      modifies this`selected
      ensures Valid() && selected == AfterFloor(area, sub, floor)
      ensures HasDrawing(DrawingKey(millId, selected)) == FloorMarked(millId, area, sub, floor)
    {
      ClicksStayInTree(tree, selected, area, sub, floor);
      selected := AfterFloor(area, sub, floor);
    }
  }

  /** The green dot on a floor button: `HAS_DRAWING[`${millId}-${area}-${sub}-${floor}`]`. */
  predicate FloorMarked(millId: string, area: string, sub: string, floor: string) {
    HasDrawing(millId + "-" + area + "-" + sub + "-" + floor)
  }

  /** The one drawing is reachable: three clicks from the opening state show it. */
  lemma DrawingReachable()
    ensures var tree := AreaTree("clearwater-augusta");
      && "Pulp" in Names(tree)
      && "Pulp 3" in Names(ItemsOf(tree, "Pulp"))
      && "5th Floor" in ItemsOf(ItemsOf(tree, "Pulp"), "Pulp 3")
      && ViewOf("clearwater-augusta", AfterFloor("Pulp", "Pulp 3", "5th Floor")) == Drawing
  {
    ClearwaterPulp();
    PulpThreeFifthFloor();
    DrawingKeyParts();
  }

  lemma ClearwaterPulp()
    ensures "Pulp" in Names(AreaTree("clearwater-augusta"))
    ensures ItemsOf(AreaTree("clearwater-augusta"), "Pulp") == PULP
  {
    assert Names(CLEARWATER_AUGUSTA)[0] == "Pulp";
  }

  lemma PulpThreeFifthFloor()
    ensures "Pulp 3" in Names(PULP) && "5th Floor" in ItemsOf(PULP, "Pulp 3")
  {
    assert Names(PULP)[1] == "Pulp 3";
    assert ItemsOf(PULP, "Pulp 3") == ItemsOf(PULP[1..], "Pulp 3");
    assert ItemsOf(PULP, "Pulp 3")[3] == "5th Floor";
  }

  // ---------------------------------------------------------------------------
  // The Pulp 3, 5th floor map
  // ---------------------------------------------------------------------------

  /** A vibration point on the map. */
  datatype Asset = Asset(id: string, x: int, y: int, inRoute: bool, caption: Option<string>, isMotor: bool, isMissing: bool)

  /** The points of the Pulp 3, 5th floor route. */
  const ASSETS: seq<Asset> := [
    Asset("55177", 185, 110, true, Some("MIXER"), false, false),
    Asset("55172", 225, 130, true, None, false, false),
    Asset("55292", 225, 215, true, None, false, false),
    Asset("2184M", 140, 255, false, None, true, false),
    Asset("2183M", 230, 310, true, None, true, false),
    Asset("57164", 230, 335, true, None, false, false),
    Asset("57126", 300, 305, true, None, false, false),
    Asset("57128", 330, 305, true, None, false, false),
    Asset("57212", 360, 340, true, None, false, false),
    Asset("57205", 370, 270, true, None, false, false),
    Asset("57201", 310, 260, true, None, false, false),
    Asset("57173", 310, 200, true, None, false, false),
    Asset("57177", 310, 140, true, None, false, false),
    Asset("57175", 380, 160, true, None, false, false),
    Asset("57171", 390, 205, true, None, false, false),
    Asset("57216", 445, 155, false, None, false, false),
    Asset("?", 490, 140, false, None, false, true),
    Asset("2182M", 530, 165, false, None, true, false),
    Asset("57214", 465, 200, true, None, false, false),
    Asset("58198", 540, 200, true, Some("MIXER"), false, false),
    Asset("58286", 590, 230, false, Some("MIXER"), false, false),
    Asset("58497", 660, 285, true, None, false, false)]

  /** The paints of the asset boxes. */
  datatype Paint = AccentRed | Blue | RouteTint | OffRouteTint | RouteHover | OffRouteHover

  /** The box's outline and its text: red for a missing id, blue for a point on the route, red otherwise. */
  function Outline(a: Asset): Paint {
    if a.isMissing then AccentRed else if a.inRoute then Blue else AccentRed
  }

  /** The box's fill; hovering looks only at whether the point is on the route. */
  function Fill(a: Asset, hovered: bool): Paint {
    if hovered then (if a.inRoute then RouteHover else OffRouteHover)
    else if a.isMissing then AccentRed else if a.inRoute then RouteTint else OffRouteTint
  }

  /** Blue is the route's colour: an outline is blue exactly for a point on the route that is not missing. */
  lemma OutlineMeaning(a: Asset)
    ensures Outline(a) == Blue <==> a.inRoute && !a.isMissing
    ensures Outline(a) == AccentRed <==> !a.inRoute || a.isMissing
    ensures Fill(a, false) == AccentRed <==> a.isMissing
    ensures Fill(a, true) == RouteHover <==> a.inRoute
  {
  }

  /** On this map the missing point is off the route, so an outline is blue exactly for the points on the route. */
  lemma MapOutlines()
    ensures forall i | 0 <= i < |ASSETS| :: ASSETS[i].isMissing ==> !ASSETS[i].inRoute
    ensures forall i | 0 <= i < |ASSETS| :: Outline(ASSETS[i]) == Blue <==> ASSETS[i].inRoute
  {
  }

  /** `Math.min(x + 10, 680), Math.max(y - 40, 10)`: where the tooltip of the point at (x, y) is drawn. */
  function TooltipAnchor(x: int, y: int): (r: (int, int))
    ensures r.0 <= 680 && r.0 <= x + 10 && (r.0 == x + 10 || r.0 == 680)
    ensures r.1 >= 10 && r.1 >= y - 40 && (r.1 == y - 40 || r.1 == 10)
  {
    (if x + 10 < 680 then x + 10 else 680, if y - 40 > 10 then y - 40 else 10)
  }

  /** On this map neither clamp ever engages: every tooltip sits 10 to the right of and 40 above its point. */
  lemma MapTooltips()
    ensures forall i | 0 <= i < |ASSETS| :: TooltipAnchor(ASSETS[i].x, ASSETS[i].y) == (ASSETS[i].x + 10, ASSETS[i].y - 40)
  {
  }
}
