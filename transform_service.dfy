/**
 * GS2BSITransformService: turns a batch of IT-Grundschutz catalogue items
 * into ISM elements under a selected group, saving each new element,
 * linking it into the loaded model and reporting progress.
 */
module TransformService {
  import opened Wrappers
  import opened GsModel
  import opened IsmModel
  import opened TransformSpec

  /** Appending one threat's scenario to the scenarios of the threats before it. */
  lemma ScenariosAppend(gs: seq<Gefaehrdung>, g: Gefaehrdung, parent: NodeId)
    ensures Scenarios(gs + [g], parent) == Scenarios(gs, parent) + [GenerateScenario(g, parent)]
  {
    var gs' := gs + [g];
    assert forall j :: 0 <= j < |gs| ==> gs'[j] == gs[j];
  }

  /** Appending one measure's control to the controls of the measures before it. */
  lemma ControlsAppend(env: Env, ms: seq<Massnahme>, m: Massnahme, parent: NodeId)
    ensures Controls(env, ms + [m], parent) == Controls(env, ms, parent) + [GenerateControl(env, m, parent)]
  {
    var ms' := ms + [m];
    assert forall j :: 0 <= j < |ms| ==> ms'[j] == ms[j];
  }

  class GS2BSITransformService {
    /** The `canContain` rules of the group classes. */
    const table: CapabilityTable
    /** The answers of the observer, the store, the documentation lookup and the authentication service. */
    const env: Env
    /** The group the items are transformed into. */
    const selectedGroup: NodeId

    var itemList: seq<Item>
    var numberOfControls: int
    var numberProcessed: int
    var isScenario: bool

    // What the collaborators hold and have been told: the element tree of
    // the store and the loaded model, the store's next id, the number of
    // save commands sent so far, the childAdded calls and the progress
    // observer's calls.
    var tree: map<NodeId, Node>
    var nextId: NodeId
    var saves: nat
    var notifications: seq<Notification>
    var progress: seq<Progress>

    /** The part of the state a run changes. */
    function Snapshot(): World
      reads this
    {
      World(tree, nextId, saves, numberProcessed, isScenario, notifications, progress)
    }

    ghost predicate Valid()
      reads this
    {
      selectedGroup in tree && Fresh(Snapshot())
    }

    function IsScenario(): bool
      reads this
    {
      isScenario
    }

    function GetNumberOfControls(): int
      reads this
    {
      numberOfControls
    }

    function GetNumberProcessed(): int
      reads this
    {
      numberProcessed
    }

    /**
     * The item list holds the elements of an array or a collection in their
     * order; anything else, `null` included, becomes a one-item list.
     */
    constructor (table: CapabilityTable, env: Env, selectedGroup: NodeId, data: Data,
                 tree: map<NodeId, Node>, nextId: NodeId)
      requires selectedGroup in tree && forall id :: id in tree ==> id < nextId
      ensures Valid()
      ensures this.table == table && this.env == env && this.selectedGroup == selectedGroup
      ensures this.tree == tree && this.nextId == nextId && saves == 0
      ensures (data.ArrayData? || data.CollectionData?) ==> itemList == data.elems
      ensures data.SingleData? ==> itemList == [data.item]
      ensures numberOfControls == 0 && numberProcessed == 0 && !isScenario
      ensures notifications == [] && progress == []
    {
      this.table := table;
      this.env := env;
      this.selectedGroup := selectedGroup;
      this.tree := tree;
      this.nextId := nextId;
      saves := 0;
      numberOfControls := 0;
      numberProcessed := 0;
      isScenario := false;
      notifications := [];
      progress := [];
      var items: seq<Item> := [];
      match data {
        case ArrayData(o) =>
          var i := 0;
          while i < |o|
            invariant 0 <= i <= |o|
            invariant items == o[..i]
          {
            items := items + [o[i]];
            i := i + 1;
          }
        case CollectionData(c) =>
          items := items + c;
        case SingleData(x) =>
          items := items + [x];
      }
      itemList := items;
    }

    /** Runs every item in order; an exception from a save ends the run and is swallowed. */
    method Run()
      requires Valid()
      modifies this
      ensures Valid()
      ensures itemList == old(itemList) && numberOfControls == |itemList|
      ensures Snapshot() == RunBatch(old(Snapshot()), table, env, selectedGroup, itemList)
    {
      numberOfControls := |itemList|;
      progress := progress + [BeginTask(numberOfControls, -1)];
      var i := 0;
      while i < |itemList|
        invariant 0 <= i <= |itemList|
        invariant Valid()
        invariant itemList == old(itemList) && numberOfControls == |itemList|
        invariant RunBatch(old(Snapshot()), table, env, selectedGroup, itemList)
               == RunFrom(Snapshot(), table, env, selectedGroup, itemList, i).0
      {
        var ok := InsertItem(i, selectedGroup, itemList[i]);
        if !ok {
          // the RuntimeException is caught and logged
          return;
        }
        i := i + 1;
      }
    }

    /** The item at position `i` of the run: skipped when the observer reports cancellation. */
    method InsertItem(i: nat, group: NodeId, item: Item) returns (ok: bool)
      requires Valid() && group in tree
      modifies this
      ensures Valid()
      ensures itemList == old(itemList) && numberOfControls == old(numberOfControls)
      ensures (Snapshot(), ok) == Insert(old(Snapshot()), table, env, group, i, item)
    {
      if env.cancelled(i) {
        // logged as a warning
        return true;
      }
      var elements: seq<Candidate> := [];
      if !item.NullItem? {
        elements := TransformGsElement(group, item, elements);
        assert elements == TransformItem(old(Snapshot()), table, env, group, item).1;
      }
      ok := SaveItems(elements);
    }

    /** CnAElementFactory.saveNew for a new group under `group`; false when it throws. */
    method SaveNew(group: NodeId, kind: Kind, title: string) returns (ok: bool, id: NodeId)
      requires Valid() && group in tree
      modifies this
      ensures Valid()
      ensures itemList == old(itemList) && numberOfControls == old(numberOfControls)
      ensures id == old(nextId) && ok == env.saveOk(old(saves))
      ensures Snapshot() == if ok then SaveNewGroup(old(Snapshot()), group, kind, title)
                            else old(Snapshot()).(saves := old(saves) + 1)
    {
      id := nextId;
      ok := env.saveOk(saves);
      saves := saves + 1;
      if ok {
        var p := tree[group];
        tree := tree[group := p.(children := p.children + [id])][id := Node(kind, title, Some(group), p.scopeId, [], {}, None)];
        nextId := id + 1;
      }
    }

    /** The group half of a module: save, update, notify; false when the save or the update threw. */
    method CreateGroup(group: NodeId, kind: Kind, title: string) returns (ok: bool, id: NodeId)
      requires Valid() && group in tree
      modifies this
      ensures Valid()
      ensures itemList == old(itemList) && numberOfControls == old(numberOfControls)
      ensures id == old(nextId)
      ensures (Snapshot(), ok) == TransformSpec.CreateGroup(old(Snapshot()), env, group, kind, title)
    {
      ok, id := SaveNew(group, kind, title);
      if !ok {
        return;
      }
      if !env.updateOk(id) {
        return false, id;
      }
      notifications := notifications + [LoadedModelChildAdded(group, id)];
    }

    /**
     * transformGsElement: appends to `elements` what `item` becomes under
     * `group`; a module first gets a new group of its own. An exception
     * while creating that group is caught: the module then adds nothing.
     */
    method TransformGsElement(group: NodeId, item: Item, elements: seq<Candidate>) returns (elements': seq<Candidate>)
      requires Valid() && group in tree
      modifies this
      ensures Valid()
      ensures itemList == old(itemList) && numberOfControls == old(numberOfControls)
      ensures Snapshot() == TransformItem(old(Snapshot()), table, env, group, item).0
      ensures elements' == elements + TransformItem(old(Snapshot()), table, env, group, item).1
    {
      elements' := elements;
      if item.MeasureItem? {
        elements' := elements' + [GenerateControl(env, item.m, group)];
      }
      if item.ThreatItem? {
        elements' := elements' + [GenerateScenario(item.g, group)];
      }
      if item.ModuleItem? {
        var b := item.b;
        var title := Show(b.id) + " " + Show(b.titel);
        if CanContain(table, tree[group].kind, IncidentScenario) {
          var ok, id := CreateGroup(group, IncidentScenarioGroup, title);
          if ok {
            elements' := AddScenarios(elements', b.gefaehrdungen, id);
          }
        } else if CanContain(table, tree[group].kind, Control) {
          var ok, id := CreateGroup(group, ControlGroup, title);
          if ok {
            elements' := AddControls(elements', b.massnahmen, id);
          }
        }
      }
    }

    /** The loop over a module's threats: one scenario per threat, appended in order. */
    method AddScenarios(elements: seq<Candidate>, gs: seq<Gefaehrdung>, parent: NodeId) returns (elements': seq<Candidate>)
      ensures elements' == elements + Scenarios(gs, parent)
    {
      elements' := elements;
      var j := 0;
      while j < |gs|
        invariant 0 <= j <= |gs|
        invariant elements' == elements + Scenarios(gs[..j], parent)
      {
        assert gs[..j + 1] == gs[..j] + [gs[j]];
        ScenariosAppend(gs[..j], gs[j], parent);
        elements' := elements' + [GenerateScenario(gs[j], parent)];
        j := j + 1;
      }
      assert gs[..j] == gs;
    }

    /** The loop over a module's measures: one control per measure, appended in order. */
    method AddControls(elements: seq<Candidate>, ms: seq<Massnahme>, parent: NodeId) returns (elements': seq<Candidate>)
      ensures elements' == elements + Controls(env, ms, parent)
    {
      elements' := elements;
      var j := 0;
      while j < |ms|
        invariant 0 <= j <= |ms|
        invariant elements' == elements + Controls(env, ms[..j], parent)
      {
        assert ms[..j + 1] == ms[..j] + [ms[j]];
        ControlsAppend(env, ms[..j], ms[j], parent);
        elements' := elements' + [GenerateControl(env, ms[j], parent)];
        j := j + 1;
      }
      assert ms[..j] == ms;
    }

    /**
     * saveItems: checks, saves, reloads and links each element in order;
     * the first element its parent cannot contain sets a flag that stops
     * every later save. False when a save threw.
     */
    method SaveItems(elements: seq<Candidate>) returns (ok: bool)
      requires Valid()
      modifies this
      ensures Valid()
      ensures itemList == old(itemList) && numberOfControls == old(numberOfControls)
      ensures (Snapshot(), ok) == SaveAll(old(Snapshot()), table, env, elements, false)
    {
      ok := true;
      var errorOccured := false;
      if |elements| > 0 {
        var i := 0;
        while i < |elements|
          invariant 0 <= i <= |elements|
          invariant Valid()
          invariant itemList == old(itemList) && numberOfControls == old(numberOfControls)
          invariant SaveAll(old(Snapshot()), table, env, elements, false)
                 == SaveAll(Snapshot(), table, env, elements[i..], errorOccured)
        {
          assert elements[i..][0] == elements[i] && elements[i..][1..] == elements[i + 1..];
          errorOccured, ok := SaveElement(elements[i], errorOccured);
          if !ok {
            return;
          }
          i := i + 1;
        }
      }
    }

    /** The body of saveItems' loop for element `e`, with the error flag carried between iterations. */
    method SaveElement(e: Candidate, errorOccured: bool) returns (errorOccured': bool, ok: bool)
      requires Valid()
      modifies this
      ensures Valid()
      ensures itemList == old(itemList) && numberOfControls == old(numberOfControls)
      ensures Step(Snapshot(), errorOccured', ok) == SaveOne(old(Snapshot()), table, env, e, errorOccured)
    {
      ok := true;
      errorOccured' := errorOccured;
      progress := progress + [TaskName(numberProcessed, e.title)];
      if !(e.parent in tree && CanContain(table, tree[e.parent].kind, e.kind)) {
        // logged as a warning
        errorOccured' := true;
      }
      if !errorOccured' {
        ok := StoreElement(e);
      }
    }

    /** The try block of saveItems' loop and what follows it, for an element whose parent can contain it; false when the save threw. */
    method StoreElement(e: Candidate) returns (ok: bool)
      requires Valid() && e.parent in tree
      modifies this
      ensures Valid()
      ensures itemList == old(itemList) && numberOfControls == old(numberOfControls)
      ensures (Snapshot(), ok) == Store(old(Snapshot()), env, e)
    {
      if e.kind == IncidentScenario {
        isScenario := true;
      }
      var succeeds := env.saveOk(saves);
      saves := saves + 1;
      if !succeeds {
        // the CommandException is logged and rethrown as a RuntimeException
        return false;
      }
      LinkElement(e);
      ok := true;
    }

    /** After a successful save of `e`: reload it and its parent, link it, notify, report and count. */
    method LinkElement(e: Candidate)
      requires Valid() && e.parent in tree
      modifies this
      ensures Valid()
      ensures itemList == old(itemList) && numberOfControls == old(numberOfControls)
      ensures Snapshot() == Link(old(Snapshot()), env, e)
    {
      var id := nextId;
      // the element as the store returns it: one permission, for the current user, with both flags
      var saved := Node(e.kind, e.title, Some(e.parent), None, [], {Permission(env.username, true, true)}, e.description);
      nextId := id + 1;
      // reload the element and its parent; on failure the in-memory parent stays
      var parent := e.parent;
      if env.reloadOk(id) {
        parent := saved.parent.GetOr(e.parent);
      }
      var p := tree[parent];
      // parent.addChild(e), then e.setParentAndScope(parent)
      tree := tree[parent := p.(children := p.children + [id])][id := saved.(parent := Some(parent), scopeId := p.scopeId)];
      notifications := notifications + [ChildAdded(parent, id)];
      progress := progress + [Processed(1)];
      numberProcessed := numberProcessed + 1;
    }
  }
}
