/**
 * Properties of GS2BSITransformService's behaviour, proved about the
 * functions of TransformSpec.
 */
module TransformProperties {
  import opened Wrappers
  import opened GsModel
  import opened IsmModel
  import opened TransformSpec

  /** The status lines saveItems reports for `cs` while the counter stays at `count`. */
  function TaskNames(count: int, cs: seq<Candidate>): (ps: seq<Progress>)
    ensures |ps| == |cs|
  {
    if |cs| == 0 then [] else [TaskName(count, cs[0].title)] + TaskNames(count, cs[1..])
  }

  /** The model-updater calls for saving `cs` with ids `first`, `first + 1`, ... */
  function Notices(cs: seq<Candidate>, first: NodeId): (ns: seq<Notification>)
    ensures |ns| == |cs|
  {
    if |cs| == 0 then [] else [ChildAdded(cs[0].parent, first)] + Notices(cs[1..], first + 1)
  }

  /** How many leading elements of `cs` fit their parent: the index of the first misfit, or |cs|. */
  ghost function FitPrefix(table: CapabilityTable, tree: map<NodeId, Node>, cs: seq<Candidate>): (k: nat)
    ensures k <= |cs|
    ensures forall j :: 0 <= j < k ==> Fits(table, tree, cs[j])
    ensures k < |cs| ==> !Fits(table, tree, cs[k])
  {
    if |cs| == 0 || !Fits(table, tree, cs[0]) then 0 else 1 + FitPrefix(table, tree, cs[1..])
  }

  // ---------------------------------------------------------------------------
  // Every step only grows the World
  // ---------------------------------------------------------------------------

  lemma GrowsTrans(a: World, b: World, c: World)
    requires Grows(a, b) && Grows(b, c)
    ensures Grows(a, c)
  {
  }

  /** saveNew hands out the next id and links the new group under `group`; the counter, the flag and the logs stay. */
  lemma SaveNewGroupGrows(w: World, group: NodeId, kind: Kind, title: string)
    requires Fresh(w) && group in w.tree
    ensures var r := SaveNewGroup(w, group, kind, title);
            && Grows(w, r) && r.nextId == w.nextId + 1 && r.saves == w.saves + 1
            && r.numberProcessed == w.numberProcessed && r.isScenario == w.isScenario
            && r.notifications == w.notifications && r.progress == w.progress
  {
  }

  /** Creating a module's group keeps ids fresh and the tree extended, and leaves the counter, the flag and the progress alone. */
  lemma CreateGroupGrows(w: World, env: Env, group: NodeId, kind: Kind, title: string)
    requires Fresh(w) && group in w.tree
    ensures var r := CreateGroup(w, env, group, kind, title);
            && Grows(w, r.0)
            && r.0.numberProcessed == w.numberProcessed && r.0.isScenario == w.isScenario && r.0.progress == w.progress
            && (r.1 ==> w.nextId in r.0.tree)
  {
    if env.saveOk(w.saves) {
      SaveNewGroupGrows(w, group, kind, title);
    }
  }

  /**
   * transformGsElement saves at most the module's group: the tree only
   * grows, nothing is counted or reported, and every element it yields
   * has a parent that exists.
   */
  lemma TransformItemGrows(w: World, table: CapabilityTable, env: Env, group: NodeId, item: Item)
    requires Fresh(w) && group in w.tree
    ensures var r := TransformItem(w, table, env, group, item);
            && Grows(w, r.0)
            && r.0.numberProcessed == w.numberProcessed && r.0.isScenario == w.isScenario && r.0.progress == w.progress
            && forall c :: c in r.1 ==> c.parent in r.0.tree
  {
    if item.ModuleItem? {
      var b := item.b;
      var title := Show(b.id) + " " + Show(b.titel);
      CreateGroupGrows(w, env, group, IncidentScenarioGroup, title);
      CreateGroupGrows(w, env, group, ControlGroup, title);
    }
  }

  lemma SaveOneGrows(w: World, table: CapabilityTable, env: Env, c: Candidate, errorOccured: bool)
    requires Fresh(w)
    ensures Grows(w, SaveOne(w, table, env, c, errorOccured).w)
  {
  }

  /** saveItems only adds nodes under existing parents: ids stay fresh, the tree is extended, counter, flag and logs grow. */
  lemma {:induction false} SaveAllGrows(w: World, table: CapabilityTable, env: Env, cs: seq<Candidate>, errorOccured: bool)
    requires Fresh(w)
    ensures Grows(w, SaveAll(w, table, env, cs, errorOccured).0)
    decreases |cs|
  {
    if |cs| > 0 {
      var s := SaveOne(w, table, env, cs[0], errorOccured);
      SaveOneGrows(w, table, env, cs[0], errorOccured);
      if s.ok {
        SaveAllGrows(s.w, table, env, cs[1..], s.errorOccured);
        GrowsTrans(w, s.w, SaveAll(s.w, table, env, cs[1..], s.errorOccured).0);
      }
    }
  }

  lemma InsertGrows(w: World, table: CapabilityTable, env: Env, group: NodeId, i: nat, item: Item)
    requires Fresh(w) && group in w.tree
    ensures Grows(w, Insert(w, table, env, group, i, item).0)
  {
    if !env.cancelled(i) && !item.NullItem? {
      var t := TransformItem(w, table, env, group, item);
      TransformItemGrows(w, table, env, group, item);
      SaveAllGrows(t.0, table, env, t.1, false);
      GrowsTrans(w, t.0, SaveAll(t.0, table, env, t.1, false).0);
    } else if !env.cancelled(i) {
      SaveAllGrows(w, table, env, [], false);
    }
  }

  /** The rest of a run keeps ids fresh, extends the tree and only lets the counter, the flag and the logs grow. */
  lemma {:induction false} RunFromGrows(w: World, table: CapabilityTable, env: Env, group: NodeId, items: seq<Item>, i: nat)
    requires Fresh(w) && group in w.tree && i <= |items|
    ensures Grows(w, RunFrom(w, table, env, group, items, i).0)
    decreases |items| - i
  {
    if i < |items| {
      var s := Insert(w, table, env, group, i, items[i]);
      InsertGrows(w, table, env, group, i, items[i]);
      if s.1 {
        RunFromGrows(s.0, table, env, group, items, i + 1);
        GrowsTrans(w, s.0, RunFrom(s.0, table, env, group, items, i + 1).0);
      }
    }
  }

  /** A whole run starts its progress report with beginTask and then only grows the World. */
  lemma RunBatchGrows(w: World, table: CapabilityTable, env: Env, group: NodeId, items: seq<Item>)
    requires Fresh(w) && group in w.tree
    ensures var r := RunBatch(w, table, env, group, items);
            && Grows(w, r) && |r.progress| > |w.progress| && r.progress[|w.progress|] == BeginTask(|items|, -1)
  {
    var w0 := w.(progress := w.progress + [BeginTask(|items|, -1)]);
    RunFromGrows(w0, table, env, group, items, 0);
    var r := RunFrom(w0, table, env, group, items, 0).0;
    assert w0.progress <= r.progress;
    assert r.progress[|w.progress|] == w0.progress[|w.progress|];
  }

  /**
   * One element of saveItems, when its parent cannot contain it or an
   * earlier one could not: the error flag is (or stays) set and only the
   * status line is reported.
   */
  lemma SaveOneSkips(w: World, table: CapabilityTable, env: Env, c: Candidate, errorOccured: bool)
    ensures var r := SaveOne(w, table, env, c, errorOccured);
            && r.errorOccured == (errorOccured || !Fits(table, w.tree, c))
            && (r.errorOccured ==> r.ok && r.w == w.(progress := w.progress + [TaskName(w.numberProcessed, c.title)]))
  {
  }

  /**
   * One element that fits and meets no earlier error, when its save throws:
   * isScenario may have been set already and the save command is counted;
   * nothing is saved, linked, notified or counted as processed.
   */
  lemma SaveOneThrows(w: World, table: CapabilityTable, env: Env, c: Candidate, errorOccured: bool)
    requires !errorOccured && Fits(table, w.tree, c) && !env.saveOk(w.saves)
    ensures var r := SaveOne(w, table, env, c, errorOccured);
            && !r.ok && !r.errorOccured
            && r.w == w.(progress := w.progress + [TaskName(w.numberProcessed, c.title)],
                         isScenario := w.isScenario || c.kind == IncidentScenario,
                         saves := w.saves + 1)
  {
  }

  /**
   * One element that fits and meets no earlier error, when its save
   * succeeds: it is stored under the next id with exactly one permission,
   * for the current user with both flags set, linked under its parent with
   * the parent's scope, announced by one childAdded and one processed(1),
   * and counted once; isScenario is set if it is an IncidentScenario.
   */
  lemma SaveOneSaves(w: World, table: CapabilityTable, env: Env, c: Candidate, errorOccured: bool)
    requires Fresh(w) && !errorOccured && Fits(table, w.tree, c) && env.saveOk(w.saves)
    ensures var r := SaveOne(w, table, env, c, errorOccured);
            && r.ok && !r.errorOccured
            && Saved(r.w.tree, w.nextId, c, env.username)
            && r.w.nextId == w.nextId + 1 && r.w.saves == w.saves + 1
            && r.w.numberProcessed == w.numberProcessed + 1
            && r.w.isScenario == (w.isScenario || c.kind == IncidentScenario)
            && r.w.notifications == w.notifications + [ChildAdded(c.parent, w.nextId)]
            && r.w.progress == w.progress + [TaskName(w.numberProcessed, c.title), Processed(1)]
            && r.w.tree.Keys == w.tree.Keys + {w.nextId}
            && r.w.tree[c.parent] == w.tree[c.parent].(children := w.tree[c.parent].children + [w.nextId])
            && (forall id :: id in w.tree && id != c.parent ==> r.w.tree[id] == w.tree[id])
  {
  }

  /** Once the error flag is set, saveItems saves nothing more: only status lines are reported. */
  lemma {:induction false} SaveAllAfterError(w: World, table: CapabilityTable, env: Env, cs: seq<Candidate>)
    ensures SaveAll(w, table, env, cs, true) == (w.(progress := w.progress + TaskNames(w.numberProcessed, cs)), true)
    decreases |cs|
  {
    if |cs| > 0 {
      var w0 := w.(progress := w.progress + [TaskName(w.numberProcessed, cs[0].title)]);
      SaveOneSkips(w, table, env, cs[0], true);
      SaveAllAfterError(w0, table, env, cs[1..]);
      assert w0.progress + TaskNames(w.numberProcessed, cs[1..]) == w.progress + TaskNames(w.numberProcessed, cs);
    } else {
      assert w.progress + TaskNames(w.numberProcessed, cs) == w.progress;
    }
  }

  /** Saving only appends children and adds nodes, so whether an element fits its parent does not change. */
  lemma FitPrefixStable(table: CapabilityTable, t: map<NodeId, Node>, t': map<NodeId, Node>, cs: seq<Candidate>)
    requires Extends(t, t')
    requires forall c :: c in cs ==> c.parent in t
    ensures FitPrefix(table, t, cs) == FitPrefix(table, t', cs)
  {
    var k, k' := FitPrefix(table, t, cs), FitPrefix(table, t', cs);
    forall j | 0 <= j < |cs| ensures Fits(table, t, cs[j]) == Fits(table, t', cs[j]) {
      assert cs[j] in cs;
      assert t'[cs[j].parent].kind == t[cs[j].parent].kind;
    }
  }

  /** A saved node stays saved while the tree only grows. */
  lemma SavedStable(t: map<NodeId, Node>, t': map<NodeId, Node>, id: NodeId, c: Candidate, user: string)
    requires Saved(t, id, c, user) && Extends(t, t')
    ensures Saved(t', id, c, user)
  {
    var cs, cs' := t[c.parent].children, t'[c.parent].children;
    assert cs <= cs';
    var i :| 0 <= i < |cs| && cs[i] == id;
    assert cs'[i] == id;
  }

  /**
   * `r` is `w` after saving the first `k` elements of `cs`: ids handed out in
   * order, counter and childAdded calls, isScenario, and each saved node.
   */
  ghost predicate SavedAsPrefix(w: World, r: World, cs: seq<Candidate>, k: nat, user: string)
    requires k <= |cs|
  {
    && r.nextId == w.nextId + k && r.saves == w.saves + k
    && r.numberProcessed == w.numberProcessed + k
    && r.notifications == w.notifications + Notices(cs[..k], w.nextId)
    && r.isScenario == (w.isScenario || HasScenario(cs, k))
    && forall j :: 0 <= j < k ==> Saved(r.tree, w.nextId + j, cs[j], user)
  }

  /** The ids among `first`, `first + 1`, ... that saving `cs` in order links under node `p`. */
  function NewChildren(cs: seq<Candidate>, p: NodeId, first: NodeId): (ids: seq<NodeId>)
    ensures |ids| <= |cs|
  {
    if |cs| == 0 then []
    else (if cs[0].parent == p then [first] else []) + NewChildren(cs[1..], p, first + 1)
  }

  /** A node that parents none of `cs` gets no new children. */
  lemma {:induction false} NewChildrenOfOther(cs: seq<Candidate>, p: NodeId, first: NodeId)
    requires forall j :: 0 <= j < |cs| ==> cs[j].parent != p
    ensures NewChildren(cs, p, first) == []
    decreases |cs|
  {
    if |cs| > 0 {
      assert cs[0].parent != p;
      forall j | 0 <= j < |cs[1..]| ensures cs[1..][j].parent != p {
        assert cs[1..][j] == cs[j + 1];
      }
      NewChildrenOfOther(cs[1..], p, first + 1);
    }
  }

  /**
   * Node `id` of tree `r` is as in `t` after saving `cs` with ids `first`,
   * `first + 1`, ...: it is in `r` exactly when it was in `t` or is one of
   * those ids, and an old node is unchanged except that the saved elements
   * it parents are appended to its children, in order.
   */
  ghost predicate FramedAt(t: map<NodeId, Node>, r: map<NodeId, Node>, cs: seq<Candidate>, first: NodeId, id: NodeId) {
    && (id in r <==> id in t || first <= id < first + |cs|)
    && (id in t ==> r[id] == t[id].(children := t[id].children + NewChildren(cs, id, first)))
  }

  /** Saving `cs[0]` under the fresh id `first` and then the rest gives the frame of the whole list. */
  lemma FramedAtStep(t: map<NodeId, Node>, t1: map<NodeId, Node>, r: map<NodeId, Node>, cs: seq<Candidate>, first: NodeId, id: NodeId)
    requires |cs| > 0 && first !in t && cs[0].parent in t
    requires t1.Keys == t.Keys + {first}
    requires t1[cs[0].parent] == t[cs[0].parent].(children := t[cs[0].parent].children + [first])
    requires id in t && id != cs[0].parent ==> t1[id] == t[id]
    requires FramedAt(t1, r, cs[1..], first + 1, id)
    ensures FramedAt(t, r, cs, first, id)
  {
    if id in t {
      var rest := NewChildren(cs[1..], id, first + 1);
      if id == cs[0].parent {
        assert t[id].children + NewChildren(cs, id, first) == (t[id].children + [first]) + rest;
      } else {
        assert NewChildren(cs, id, first) == rest;
      }
    }
  }

  /** The progress reports of saving `cs` in order, the counter starting at `count`: a status line and one unit each. */
  function SaveReports(count: int, cs: seq<Candidate>): (ps: seq<Progress>)
    ensures |ps| == 2 * |cs|
    decreases |cs|
  {
    if |cs| == 0 then [] else [TaskName(count, cs[0].title), Processed(1)] + SaveReports(count + 1, cs[1..])
  }

  /**
   * The progress `r` reports after `w` when saveItems saves the first `k`
   * elements of `cs` and skips the rest: status line and one unit per saved
   * element, then only a status line per skipped one.
   */
  ghost predicate ReportedAsPrefix(w: World, r: World, cs: seq<Candidate>, k: nat)
    requires k <= |cs|
  {
    r.progress == w.progress + SaveReports(w.numberProcessed, cs[..k]) + TaskNames(w.numberProcessed + k, cs[k..])
  }

  lemma ReportedAsPrefixStep(w: World, w1: World, r: World, cs: seq<Candidate>, k: nat)
    requires 0 < k <= |cs|
    requires w1.numberProcessed == w.numberProcessed + 1
    requires w1.progress == w.progress + [TaskName(w.numberProcessed, cs[0].title), Processed(1)]
    requires ReportedAsPrefix(w1, r, cs[1..], k - 1)
    ensures ReportedAsPrefix(w, r, cs, k)
  {
    assert cs[..k] == [cs[0]] + cs[1..][..k - 1];
    assert cs[1..][k - 1..] == cs[k..];
  }

  /** Whether one of the first `k` elements is an IncidentScenario. */
  ghost predicate HasScenario(cs: seq<Candidate>, k: nat) {
    exists j :: 0 <= j < k && j < |cs| && cs[j].kind == IncidentScenario
  }

  lemma HasScenarioCons(cs: seq<Candidate>, k: nat)
    requires 0 < k <= |cs|
    ensures HasScenario(cs, k) == (cs[0].kind == IncidentScenario || HasScenario(cs[1..], k - 1))
  {
    if HasScenario(cs[1..], k - 1) {
      var j :| 0 <= j < k - 1 && j < |cs[1..]| && cs[1..][j].kind == IncidentScenario;
      assert cs[j + 1].kind == IncidentScenario;
    }
    if HasScenario(cs, k) {
      var j :| 0 <= j < k && j < |cs| && cs[j].kind == IncidentScenario;
      if j > 0 {
        assert cs[1..][j - 1].kind == IncidentScenario;
      }
    }
  }

  lemma NoticesCons(cs: seq<Candidate>, k: nat, first: NodeId)
    requires 0 < k <= |cs|
    ensures Notices(cs[..k], first) == [ChildAdded(cs[0].parent, first)] + Notices(cs[1..][..k - 1], first + 1)
  {
    assert cs[..k] == [cs[0]] + cs[1..][..k - 1];
  }

  /** Saving one element in front of a saved prefix gives a saved prefix one longer. */
  lemma SavedAsPrefixStep(w: World, w1: World, r: World, cs: seq<Candidate>, k: nat, user: string)
    requires 0 < k <= |cs|
    requires w1.nextId == w.nextId + 1 && w1.saves == w.saves + 1 && w1.numberProcessed == w.numberProcessed + 1
    requires w1.notifications == w.notifications + [ChildAdded(cs[0].parent, w.nextId)]
    requires w1.isScenario == (w.isScenario || cs[0].kind == IncidentScenario)
    requires Saved(w1.tree, w.nextId, cs[0], user) && Extends(w1.tree, r.tree)
    requires SavedAsPrefix(w1, r, cs[1..], k - 1, user)
    ensures SavedAsPrefix(w, r, cs, k, user)
  {
    NoticesCons(cs, k, w.nextId);
    HasScenarioCons(cs, k);
    SavedStable(w1.tree, r.tree, w.nextId, cs[0], user);
    forall j | 0 <= j < k ensures Saved(r.tree, w.nextId + j, cs[j], user) {
      if j > 0 {
        assert cs[1..][j - 1] == cs[j];
      }
    }
  }

  /**
   * saveItems with a fresh error flag saves exactly the elements before the
   * first one whose parent cannot contain it, in order: each gets the next
   * id, its own title and kind, one full permission for the current user,
   * and a link under its parent; one childAdded per saved element, in list
   * order; the counter rises by their number; isScenario is set exactly
   * when one of them is an IncidentScenario. (The rest of the tree, node
   * by node, and the progress log: SaveAllFrame and SaveAllReports.)
   */
  lemma {:induction false} SaveAllSavesFitPrefix(w: World, table: CapabilityTable, env: Env, cs: seq<Candidate>)
    requires Fresh(w)
    requires forall c :: c in cs ==> c.parent in w.tree
    requires forall n :: w.saves <= n < w.saves + FitPrefix(table, w.tree, cs) ==> env.saveOk(n)
    ensures SaveAll(w, table, env, cs, false).1
    ensures SavedAsPrefix(w, SaveAll(w, table, env, cs, false).0, cs, FitPrefix(table, w.tree, cs), env.username)
    decreases |cs|
  {
    var k := FitPrefix(table, w.tree, cs);
    if |cs| == 0 {
      assert cs[..k] == [] && cs[k..] == [];
    } else if !Fits(table, w.tree, cs[0]) {
      SaveOneSkips(w, table, env, cs[0], false);
      var w0 := SaveOne(w, table, env, cs[0], false).w;
      SaveAllAfterError(w0, table, env, cs[1..]);
      assert cs[..k] == [] && cs[k..] == cs;
      assert w0.progress + TaskNames(w.numberProcessed, cs[1..]) == w.progress + TaskNames(w.numberProcessed, cs);
    } else {
      assert k == 1 + FitPrefix(table, w.tree, cs[1..]);
      assert env.saveOk(w.saves);
      SaveOneSaves(w, table, env, cs[0], false);
      SaveOneGrows(w, table, env, cs[0], false);
      var s := SaveOne(w, table, env, cs[0], false);
      var w1 := s.w;
      forall c | c in cs[1..] ensures c.parent in w1.tree {
        assert c in cs;
      }
      FitPrefixStable(table, w.tree, w1.tree, cs[1..]);
      SaveAllSavesFitPrefix(w1, table, env, cs[1..]);
      var r := SaveAll(w1, table, env, cs[1..], false);
      SaveAllGrows(w1, table, env, cs[1..], false);
      SavedAsPrefixStep(w, w1, r.0, cs, k, env.username);
    }
  }

  /** saveItems on a list whose first element does not fit: it saves nothing and only reports status lines. */
  lemma SaveAllFirstMisfits(w: World, table: CapabilityTable, env: Env, cs: seq<Candidate>)
    requires |cs| > 0 && !Fits(table, w.tree, cs[0])
    ensures SaveAll(w, table, env, cs, false) == (w.(progress := w.progress + TaskNames(w.numberProcessed, cs)), true)
    ensures FitPrefix(table, w.tree, cs) == 0
  {
    SaveOneSkips(w, table, env, cs[0], false);
    var w0 := SaveOne(w, table, env, cs[0], false).w;
    SaveAllAfterError(w0, table, env, cs[1..]);
    assert w0.progress + TaskNames(w.numberProcessed, cs[1..]) == w.progress + TaskNames(w.numberProcessed, cs);
  }

  /** saveItems on a list whose first element fits and saves: the rest runs on the World after it, which still meets the conditions. */
  lemma SaveAllFirstFits(w: World, table: CapabilityTable, env: Env, cs: seq<Candidate>)
    requires Fresh(w)
    requires forall c :: c in cs ==> c.parent in w.tree
    requires |cs| > 0 && Fits(table, w.tree, cs[0]) && env.saveOk(w.saves)
    ensures var w1 := SaveOne(w, table, env, cs[0], false).w;
            && SaveAll(w, table, env, cs, false) == SaveAll(w1, table, env, cs[1..], false)
            && Fresh(w1) && w1.nextId == w.nextId + 1 && w1.saves == w.saves + 1
            && (forall c :: c in cs[1..] ==> c.parent in w1.tree)
            && FitPrefix(table, w1.tree, cs[1..]) + 1 == FitPrefix(table, w.tree, cs)
  {
    SaveOneSaves(w, table, env, cs[0], false);
    SaveOneGrows(w, table, env, cs[0], false);
    var w1 := SaveOne(w, table, env, cs[0], false).w;
    forall c | c in cs[1..] ensures c.parent in w1.tree {
      assert c in cs;
    }
    FitPrefixStable(table, w.tree, w1.tree, cs[1..]);
  }

  /** The frame of saving the first `k` elements, from the frame of the `k - 1` after a first one that fits and saves. */
  lemma SaveOneFramedAt(w: World, table: CapabilityTable, env: Env, cs: seq<Candidate>, k: nat, r: map<NodeId, Node>, id: NodeId)
    requires Fresh(w) && 0 < k <= |cs| && Fits(table, w.tree, cs[0]) && env.saveOk(w.saves)
    requires FramedAt(SaveOne(w, table, env, cs[0], false).w.tree, r, cs[1..][..k - 1], w.nextId + 1, id)
    ensures FramedAt(w.tree, r, cs[..k], w.nextId, id)
  {
    SaveOneSaves(w, table, env, cs[0], false);
    assert cs[..k][1..] == cs[1..][..k - 1];
    FramedAtStep(w.tree, SaveOne(w, table, env, cs[0], false).w.tree, r, cs[..k], w.nextId, id);
  }

  /**
   * Under the same conditions nothing else in the tree changes, whichever
   * node `id` is looked at: the ids of the saved elements are the only new
   * nodes, and an old node only gets the saved elements it parents appended
   * to its children (so a node that parents none of them is unchanged,
   * NewChildrenOfOther).
   */
  lemma {:induction false} SaveAllFrame(w: World, table: CapabilityTable, env: Env, cs: seq<Candidate>, id: NodeId)
    requires Fresh(w)
    requires forall c :: c in cs ==> c.parent in w.tree
    requires forall n :: w.saves <= n < w.saves + FitPrefix(table, w.tree, cs) ==> env.saveOk(n)
    ensures FramedAt(w.tree, SaveAll(w, table, env, cs, false).0.tree, cs[..FitPrefix(table, w.tree, cs)], w.nextId, id)
    decreases |cs|
  {
    var k := FitPrefix(table, w.tree, cs);
    if k == 0 {
      if |cs| > 0 {
        SaveAllFirstMisfits(w, table, env, cs);
      }
      assert cs[..k] == [];
    } else {
      assert env.saveOk(w.saves);
      SaveAllFirstFits(w, table, env, cs);
      var w1 := SaveOne(w, table, env, cs[0], false).w;
      SaveAllFrame(w1, table, env, cs[1..], id);
      SaveOneFramedAt(w, table, env, cs, k, SaveAll(w1, table, env, cs[1..], false).0.tree, id);
    }
  }

  /**
   * Under the same conditions the progress log gets a status line and
   * processed(1) per saved element, then a status line per skipped one.
   */
  lemma {:induction false} SaveAllReports(w: World, table: CapabilityTable, env: Env, cs: seq<Candidate>)
    requires Fresh(w)
    requires forall c :: c in cs ==> c.parent in w.tree
    requires forall n :: w.saves <= n < w.saves + FitPrefix(table, w.tree, cs) ==> env.saveOk(n)
    ensures ReportedAsPrefix(w, SaveAll(w, table, env, cs, false).0, cs, FitPrefix(table, w.tree, cs))
    decreases |cs|
  {
    var k := FitPrefix(table, w.tree, cs);
    if k == 0 {
      if |cs| > 0 {
        SaveAllFirstMisfits(w, table, env, cs);
      }
      assert cs[..k] == [] && cs[k..] == cs;
    } else {
      assert env.saveOk(w.saves);
      SaveAllFirstFits(w, table, env, cs);
      SaveOneSaves(w, table, env, cs[0], false);
      var w1 := SaveOne(w, table, env, cs[0], false).w;
      SaveAllReports(w1, table, env, cs[1..]);
      ReportedAsPrefixStep(w, w1, SaveAll(w1, table, env, cs[1..], false).0, cs, k);
    }
  }

  /** A failing reload is only logged: saveItems' outcome does not depend on it. */
  lemma {:induction false} SaveAllIgnoresReload(w: World, table: CapabilityTable, env: Env, cs: seq<Candidate>,
                                                errorOccured: bool, reload: NodeId -> bool)
    ensures SaveAll(w, table, env.(reloadOk := reload), cs, errorOccured) == SaveAll(w, table, env, cs, errorOccured)
    decreases |cs|
  {
    if |cs| > 0 {
      var s := SaveOne(w, table, env, cs[0], errorOccured);
      assert SaveOne(w, table, env.(reloadOk := reload), cs[0], errorOccured) == s;
      if s.ok {
        SaveAllIgnoresReload(s.w, table, env, cs[1..], s.errorOccured, reload);
      }
    }
  }

  /** When every poll from position `i` on reports cancellation, the rest of the run changes nothing. */
  lemma {:induction false} RunFromCancelled(w: World, table: CapabilityTable, env: Env, group: NodeId, items: seq<Item>, i: nat)
    requires group in w.tree && i <= |items|
    requires forall j :: i <= j ==> env.cancelled(j)
    ensures RunFrom(w, table, env, group, items, i) == (w, false)
    decreases |items| - i
  {
    if i < |items| {
      RunFromCancelled(w, table, env, group, items, i + 1);
    }
  }

  lemma {:induction false} RunFromPrefix(w: World, table: CapabilityTable, env: Env, group: NodeId, items: seq<Item>, c: nat, i: nat)
    requires group in w.tree && i <= c <= |items|
    requires forall j :: c <= j ==> env.cancelled(j)
    ensures RunFrom(w, table, env, group, items, i) == RunFrom(w, table, env, group, items[..c], i)
    decreases c - i
  {
    if i == c {
      RunFromCancelled(w, table, env, group, items, i);
    } else {
      assert items[..c][i] == items[i];
      var s := Insert(w, table, env, group, i, items[i]);
      if s.1 {
        RunFromPrefix(s.0, table, env, group, items, c, i + 1);
      }
    }
  }

  /**
   * Cancellation that stays set from the poll for item `c` on: the run ends
   * as if the list held only its first `c` items, so nothing later is
   * transformed, saved or counted.
   */
  lemma RunStopsAtCancellation(w: World, table: CapabilityTable, env: Env, group: NodeId, items: seq<Item>, c: nat)
    requires group in w.tree && c <= |items|
    requires forall j :: c <= j ==> env.cancelled(j)
    ensures RunBatch(w, table, env, group, items)
         == RunFrom(w.(progress := w.progress + [BeginTask(|items|, -1)]), table, env, group, items[..c], 0).0
  {
    RunFromPrefix(w.(progress := w.progress + [BeginTask(|items|, -1)]), table, env, group, items, c, 0);
  }

  /**
   * A save that throws at item `i` ends the run there: the later items are
   * never polled, transformed or saved, and what was saved before stays.
   */
  lemma RunStopsAtFailedSave(w: World, table: CapabilityTable, env: Env, group: NodeId, items: seq<Item>, i: nat)
    requires group in w.tree && i < |items|
    requires !Insert(w, table, env, group, i, items[i]).1
    ensures RunFrom(w, table, env, group, items, i) == (Insert(w, table, env, group, i, items[i]).0, true)
    ensures RunFrom(w, table, env, group, items, i) == RunFrom(w, table, env, group, items[..i + 1], i)
  {
    assert items[..i + 1][i] == items[i];
  }

  /**
   * The module case of transformGsElement. If the target group can contain
   * an IncidentScenario, a new IncidentScenarioGroup titled "<id> <titel>"
   * is created under it and the elements are one scenario per threat of the
   * module, in order, under that new group (the measures are ignored);
   * otherwise, if it can contain a Control, the same with a ControlGroup and
   * one control per measure; otherwise nothing happens. When the group's
   * save throws, the module is skipped and only the save command is
   * counted; when the save succeeds but the update throws, the module is
   * skipped too, and the saved group stays without the loaded model being
   * told.
   */
  lemma ModuleExpansion(w: World, table: CapabilityTable, env: Env, group: NodeId, b: Baustein)
    requires Fresh(w) && group in w.tree
    ensures var r := TransformItem(w, table, env, group, ModuleItem(b));
            var gk := w.tree[group].kind;
            var id := w.nextId;
            var title := Show(b.id) + " " + Show(b.titel);
            var creates := CanContain(table, gk, IncidentScenario) || CanContain(table, gk, Control);
            && (!creates ==> r == (w, []))
            && (creates && !env.saveOk(w.saves) ==> r == (w.(saves := w.saves + 1), []))
            && (creates && env.saveOk(w.saves) && !env.updateOk(id) ==>
                  && r.1 == [] && id in r.0.tree
                  && r.0.tree[id].parent == Some(group) && r.0.tree[id].title == title
                  && group in r.0.tree && id in r.0.tree[group].children
                  && r.0.notifications == w.notifications)
            && (CanContain(table, gk, IncidentScenario) && env.saveOk(w.saves) && env.updateOk(id) ==>
                  && GroupCreated(r.0, id, IncidentScenarioGroup, group, title)
                  && |r.1| == |b.gefaehrdungen|
                  && forall j :: 0 <= j < |r.1| ==> r.1[j] == GenerateScenario(b.gefaehrdungen[j], id))
            && (!CanContain(table, gk, IncidentScenario) && CanContain(table, gk, Control) && env.saveOk(w.saves) && env.updateOk(id) ==>
                  && GroupCreated(r.0, id, ControlGroup, group, title)
                  && |r.1| == |b.massnahmen|
                  && forall j :: 0 <= j < |r.1| ==> r.1[j] == GenerateControl(env, b.massnahmen[j], id))
  {
  }

  /** A created module group's final title is "<id> <titel>" in both branches, even when the update fails. */
  lemma ModuleGroupTitle(w: World, table: CapabilityTable, env: Env, group: NodeId, b: Baustein)
    requires Fresh(w) && group in w.tree && env.saveOk(w.saves)
    requires CanContain(table, w.tree[group].kind, IncidentScenario) || CanContain(table, w.tree[group].kind, Control)
    ensures var r := TransformItem(w, table, env, group, ModuleItem(b));
            w.nextId in r.0.tree && r.0.tree[w.nextId].title == Show(b.id) + " " + Show(b.titel)
  {
  }

  /**
   * A module whose group save throws is skipped, and nothing more: the
   * exception is caught inside transformGsElement, and the next save command
   * is decided on its own. So a run over a module and then a measure, under
   * a group that can hold controls, where only the group's save throws,
   * ends normally with the measure's control saved under the next id and
   * counted.
   */
  lemma ModuleSkipKeepsRunGoing(w: World, table: CapabilityTable, env: Env, group: NodeId, b: Baustein, m: Massnahme)
    requires Fresh(w) && group in w.tree
    requires CanContain(table, w.tree[group].kind, Control)
    requires !env.cancelled(0) && !env.cancelled(1)
    requires !env.saveOk(w.saves) && env.saveOk(w.saves + 1)
    ensures var r := RunFrom(w, table, env, group, [ModuleItem(b), MeasureItem(m)], 0);
            && !r.1
            && r.0.numberProcessed == w.numberProcessed + 1
            && Saved(r.0.tree, w.nextId, GenerateControl(env, m, group), env.username)
  {
    var items := [ModuleItem(b), MeasureItem(m)];
    ModuleExpansion(w, table, env, group, b);
    var w1 := w.(saves := w.saves + 1);
    assert Insert(w, table, env, group, 0, items[0]) == (w1, true);
    var c := GenerateControl(env, m, group);
    assert Fits(table, w1.tree, c);
    SaveOneSaves(w1, table, env, c, false);
    var s := SaveOne(w1, table, env, c, false);
    assert [c][1..] == [];
    assert SaveAll(w1, table, env, [c], false) == (s.w, true);
    assert Insert(w1, table, env, group, 1, items[1]) == (s.w, true);
    assert RunFrom(w, table, env, group, items, 0) == RunFrom(s.w, table, env, group, items, 2);
  }
}
