/**
 * What GS2BSITransformService does, stated as functions on the `World` it
 * changes, and what those functions guarantee. The class in
 * transform_service.dfy is proved to follow these functions step by step.
 */
module TransformSpec {
  import opened Wrappers
  import opened GsModel
  import opened IsmModel

  // ---------------------------------------------------------------------------
  // Building candidates (generateControl, generateScenario)
  // ---------------------------------------------------------------------------

  /** generateControl: a new Control under `parent` titled "<id> <titel>", described by the documentation lookup when it succeeds. */
  function GenerateControl(env: Env, m: Massnahme, parent: NodeId): (c: Candidate)
    ensures c.kind == Control && c.parent == parent && c.permissions == {}
    ensures c.title == Show(m.id) + " " + Show(m.titel)
    ensures c.description == env.html(m.url, m.stand)
  {
    Candidate(Control, Show(m.id) + " " + Show(m.titel), parent, {}, env.html(m.url, m.stand))
  }

  /** generateScenario: a new IncidentScenario under `parent`; a threat without title gives "Dummy Scenario". */
  function GenerateScenario(g: Gefaehrdung, parent: NodeId): (c: Candidate)
    ensures c.kind == IncidentScenario && c.parent == parent && c.permissions == {} && c.description == None
    ensures g.titel.Some? ==> c.title == Show(g.id) + " " + g.titel.value
    ensures g.titel.None? ==> c.title == "Dummy Scenario"
  {
    if g.titel.Some? then
      Candidate(IncidentScenario, Show(g.id) + " " + g.titel.value, parent, {}, None)
    else
      Candidate(IncidentScenario, "Dummy Scenario", parent, {}, None)
  }

  /** One Control per measure, in the module's order. */
  function Controls(env: Env, ms: seq<Massnahme>, parent: NodeId): (cs: seq<Candidate>)
    ensures |cs| == |ms| && forall c :: c in cs ==> c.parent == parent
    ensures forall j :: 0 <= j < |ms| ==> cs[j] == GenerateControl(env, ms[j], parent)
  {
    if |ms| == 0 then [] else [GenerateControl(env, ms[0], parent)] + Controls(env, ms[1..], parent)
  }

  /** One IncidentScenario per threat, in the module's order. */
  function Scenarios(gs: seq<Gefaehrdung>, parent: NodeId): (cs: seq<Candidate>)
    ensures |cs| == |gs| && forall c :: c in cs ==> c.parent == parent
    ensures forall j :: 0 <= j < |gs| ==> cs[j] == GenerateScenario(gs[j], parent)
  {
    if |gs| == 0 then [] else [GenerateScenario(gs[0], parent)] + Scenarios(gs[1..], parent)
  }

  // ---------------------------------------------------------------------------
  // transformGsElement
  // ---------------------------------------------------------------------------

  /** A new group `id` of `kind` titled `title` hangs under `parent`, and the loaded model was told so. */
  ghost predicate GroupCreated(w: World, id: NodeId, kind: Kind, parent: NodeId, title: string) {
    && id in w.tree && parent in w.tree
    && w.tree[id].kind == kind
    && w.tree[id].title == title
    && w.tree[id].parent == Some(parent)
    && id in w.tree[parent].children
    && |w.notifications| > 0
    && w.notifications[|w.notifications| - 1] == LoadedModelChildAdded(parent, id)
  }

  /**
   * CnAElementFactory.saveNew, when it succeeds: the store persists a new
   * group of `kind` titled `title` under `group` with the next id, and the
   * loaded model links it as the group's last child, with the group's scope.
   */
  ghost function SaveNewGroup(w: World, group: NodeId, kind: Kind, title: string): (r: World)
    requires group in w.tree
    ensures w.tree.Keys <= r.tree.Keys && w.nextId in r.tree
  {
    var id := w.nextId;
    var p := w.tree[group];
    w.(tree := w.tree[group := p.(children := p.children + [id])][id := Node(kind, title, Some(group), p.scopeId, [], {}, None)],
       nextId := id + 1,
       saves := w.saves + 1)
  }

  /**
   * The group half of the module case: save the new group titled `title`
   * (a save command, counted whether or not it throws), update it in the
   * store and tell the loaded model. False when the save or the update
   * threw; the exception is caught and the module then yields no elements.
   */
  ghost function CreateGroup(w: World, env: Env, group: NodeId, kind: Kind, title: string): (r: (World, bool))
    requires group in w.tree
    ensures w.tree.Keys <= r.0.tree.Keys
  {
    var id := w.nextId;
    if !env.saveOk(w.saves) then (w.(saves := w.saves + 1), false)
    else
      var w1 := SaveNewGroup(w, group, kind, title);
      if !env.updateOk(id) then (w1, false)
      else (w1.(notifications := w1.notifications + [LoadedModelChildAdded(group, id)]), true)
  }

  /**
   * transformGsElement on a non-null item: the World afterwards and the
   * elements appended to the (initially empty) element list.
   */
  ghost function TransformItem(w: World, table: CapabilityTable, env: Env, group: NodeId, item: Item): (r: (World, seq<Candidate>))
    requires group in w.tree
    ensures w.tree.Keys <= r.0.tree.Keys
  {
    match item
    case MeasureItem(m) => (w, [GenerateControl(env, m, group)])
    case ThreatItem(g) => (w, [GenerateScenario(g, group)])
    case ModuleItem(b) =>
      var gk := w.tree[group].kind;
      var id := w.nextId;
      var title := Show(b.id) + " " + Show(b.titel);
      if CanContain(table, gk, IncidentScenario) then
        var g := CreateGroup(w, env, group, IncidentScenarioGroup, title);
        (g.0, if g.1 then Scenarios(b.gefaehrdungen, id) else [])
      else if CanContain(table, gk, Control) then
        var g := CreateGroup(w, env, group, ControlGroup, title);
        (g.0, if g.1 then Controls(env, b.massnahmen, id) else [])
      else (w, [])
    case _ => (w, [])
  }

  // ---------------------------------------------------------------------------
  // saveItems
  // ---------------------------------------------------------------------------

  /** Node `id` is `c` as saved for `user`: its fields, one full permission, linked under its parent with the parent's scope. */
  ghost predicate Saved(tree: map<NodeId, Node>, id: NodeId, c: Candidate, user: string) {
    && id in tree && c.parent in tree
    && tree[id].kind == c.kind
    && tree[id].title == c.title
    && tree[id].description == c.description
    && tree[id].permissions == {Permission(user, true, true)}
    && tree[id].parent == Some(c.parent)
    && tree[id].scopeId == tree[c.parent].scopeId
    && id in tree[c.parent].children
  }

  /**
   * `r` came from `w` by saving only: ids stay fresh, every node is kept
   * with its children at most extended, and the counter, the flag and the
   * logs only grow.
   */
  ghost predicate Grows(w: World, r: World) {
    && Fresh(r) && Extends(w.tree, r.tree) && w.nextId <= r.nextId
    && w.numberProcessed <= r.numberProcessed
    && (w.isScenario ==> r.isScenario)
    && w.notifications <= r.notifications && w.progress <= r.progress
  }

  /** The state of the loop in saveItems after one element: the World, the sticky error flag, and false when the save threw. */
  datatype Step = Step(w: World, errorOccured: bool, ok: bool)

  /**
   * The try block of saveItems for an element that fits: mark a scenario,
   * execute SaveElement (a save command, counted whether or not it throws;
   * false when it throws), and then Link.
   */
  ghost function Store(w: World, env: Env, c: Candidate): (r: (World, bool))
    requires c.parent in w.tree
    ensures w.tree.Keys <= r.0.tree.Keys
  {
    var w1 := w.(isScenario := w.isScenario || c.kind == IncidentScenario, saves := w.saves + 1);
    if !env.saveOk(w.saves) then (w1, false)
    else (Link(w1, env, c), true)
  }

  /**
   * What follows a successful SaveElement: the store holds the element
   * under the next id; reload it and its parent, then link it under that
   * parent with the parent's scope, tell the model updater, report one
   * unit and count it.
   */
  ghost function Link(w: World, env: Env, c: Candidate): (r: World)
    requires c.parent in w.tree
    ensures w.tree.Keys <= r.tree.Keys
  {
    var id := w.nextId;
    // what the store holds after the save: one permission, for the current user, with both flags
    var stored := Node(c.kind, c.title, Some(c.parent), None, [], {Permission(env.username, true, true)}, c.description);
    // the reload takes the parent from the store; when it fails the in-memory parent stays
    var parent := if env.reloadOk(id) then stored.parent.GetOr(c.parent) else c.parent;
    var p := w.tree[parent];
    w.(tree := w.tree[parent := p.(children := p.children + [id])][id := stored.(parent := Some(parent), scopeId := p.scopeId)],
       nextId := id + 1,
       notifications := w.notifications + [ChildAdded(parent, id)],
       progress := w.progress + [Processed(1)],
       numberProcessed := w.numberProcessed + 1)
  }

  /** One iteration of saveItems' loop for element `c`: report its title, check that its parent can contain it, store it unless an error occurred. */
  ghost function SaveOne(w: World, table: CapabilityTable, env: Env, c: Candidate, errorOccured: bool): (r: Step)
    ensures w.tree.Keys <= r.w.tree.Keys
  {
    var w0 := w.(progress := w.progress + [TaskName(w.numberProcessed, c.title)]);
    var err := errorOccured || !Fits(table, w.tree, c);
    if err then Step(w0, err, true)
    else
      var s := Store(w0, env, c);
      Step(s.0, err, s.1)
  }

  /** saveItems on `cs`, starting with error flag `errorOccured`; false when a save threw. */
  ghost function SaveAll(w: World, table: CapabilityTable, env: Env, cs: seq<Candidate>, errorOccured: bool): (r: (World, bool))
    ensures w.tree.Keys <= r.0.tree.Keys
    decreases |cs|
  {
    if |cs| == 0 then (w, true)
    else
      var s := SaveOne(w, table, env, cs[0], errorOccured);
      if !s.ok then (s.w, false)
      else SaveAll(s.w, table, env, cs[1..], s.errorOccured)
  }

  // ---------------------------------------------------------------------------
  // insertItem and run
  // ---------------------------------------------------------------------------

  /** insertItem for the item at position `i` (the i-th cancellation poll); false when a save threw. */
  ghost function Insert(w: World, table: CapabilityTable, env: Env, group: NodeId, i: nat, item: Item): (r: (World, bool))
    requires group in w.tree
    ensures env.cancelled(i) ==> r == (w, true)
    ensures !env.cancelled(i) && (item.NullItem? || item.OtherItem?) ==> r == (w, true)
    ensures w.tree.Keys <= r.0.tree.Keys
  {
    if env.cancelled(i) then (w, true)
    else if item.NullItem? then SaveAll(w, table, env, [], false)
    else
      var t := TransformItem(w, table, env, group, item);
      SaveAll(t.0, table, env, t.1, false)
  }

  /** run's loop from position `i`; the flag says whether an exception ended it, which takes an item to happen. */
  ghost function RunFrom(w: World, table: CapabilityTable, env: Env, group: NodeId, items: seq<Item>, i: nat): (r: (World, bool))
    requires group in w.tree && i <= |items|
    ensures r.1 ==> i < |items|
    ensures w.tree.Keys <= r.0.tree.Keys
    decreases |items| - i
  {
    if i == |items| then (w, false)
    else
      var s := Insert(w, table, env, group, i, items[i]);
      if !s.1 then (s.0, true)
      else RunFrom(s.0, table, env, group, items, i + 1)
  }

  /** run: call beginTask with the item count (total work -1, unknown) and insert every item in order. */
  ghost function RunBatch(w: World, table: CapabilityTable, env: Env, group: NodeId, items: seq<Item>): (r: World)
    requires group in w.tree
    ensures w.tree.Keys <= r.tree.Keys
  {
    RunFrom(w.(progress := w.progress + [BeginTask(|items|, -1)]), table, env, group, items, 0).0
  }
}
