/**
 * The ISO-27000 ("ISM") side of the transformation: element kinds, the
 * `canContain` capability table, tree nodes, the candidates the transformer
 * builds in memory, and what the service's collaborators observe.
 */
module IsmModel {
  import opened Wrappers
  import opened GsModel

  /** A persisted element's database id. */
  type NodeId = nat

  /** The element classes the transformation creates or writes into. */
  datatype Kind =
    | Control
    | ControlGroup
    | IncidentScenario
    | IncidentScenarioGroup
    | OtherGroup(typeId: string)

  /** `canContain` of each group class, as data: container kind to the kinds it accepts as children. */
  type CapabilityTable = map<Kind, set<Kind>>

  predicate CanContain(table: CapabilityTable, container: Kind, child: Kind) {
    container in table && child in table[container]
  }

  /** `Permission.createPermission(element, role, read, write)`; the element is the node holding it. */
  datatype Permission = Permission(role: string, readAllowed: bool, writeAllowed: bool)

  /** A persisted element as the loaded model holds it. */
  datatype Node = Node(
    kind: Kind,
    title: string,
    parent: Option<NodeId>,
    scopeId: Option<NodeId>,
    children: seq<NodeId>,
    permissions: set<Permission>,
    description: Option<string>)

  /** An element built in memory by the transformer, not yet persisted; `parent` is an existing node. */
  datatype Candidate = Candidate(
    kind: Kind,
    title: string,
    parent: NodeId,
    permissions: set<Permission>,
    description: Option<string>)

  /** A `childAdded(parent, child)` call: on the model updater, or on the loaded model (for new module groups). */
  datatype Notification =
    | ChildAdded(parent: NodeId, child: NodeId)
    | LoadedModelChildAdded(parent: NodeId, child: NodeId)

  /** A call on the progress observer; `TaskName(n, t)` is the status line built from the counter and a title. */
  datatype Progress =
    | BeginTask(itemCount: int, totalWork: int)
    | TaskName(count: int, title: string)
    | Processed(units: int)

  /**
   * The answers of the collaborators the service consults:
   * - `username`: the authentication service's current user;
   * - `cancelled(i)`: the observer's answer to the i-th `isCanceled` poll (one poll per item);
   * - `saveOk(n)`: whether the n-th save command of the run succeeds, counting from 0 the
   *   module groups' `saveNew` and the elements' `SaveElement` alike;
   * - `reloadOk(id)`: whether reloading element `id` and its parent succeeds;
   * - `updateOk(id)`: whether `updateEntity` of the new module group `id` succeeds;
   * - `html(url, stand)`: the documentation lookup, `None` when it fails.
   */
  datatype Env = Env(
    username: string,
    cancelled: nat -> bool,
    saveOk: nat -> bool,
    reloadOk: NodeId -> bool,
    updateOk: NodeId -> bool,
    html: (JString, JString) -> Option<string>)

  /**
   * Everything a run changes: the element tree (store and loaded model), the
   * store's next id, the number of save commands issued so far (successful
   * or not), the service's `numberProcessed` and `isScenario`, and the calls
   * received by the model updater and the progress observer, in order.
   */
  datatype World = World(
    tree: map<NodeId, Node>,
    nextId: NodeId,
    saves: nat,
    numberProcessed: int,
    isScenario: bool,
    notifications: seq<Notification>,
    progress: seq<Progress>)

  /** The store hands out ids above every id in use. */
  ghost predicate Fresh(w: World) {
    forall id :: id in w.tree ==> id < w.nextId
  }

  /** Every node of `t` is still in `t'` with the same fields, except that children may have been appended. */
  ghost predicate Extends(t: map<NodeId, Node>, t': map<NodeId, Node>) {
    forall id :: id in t ==>
      id in t' && t'[id].(children := t[id].children) == t[id] && t[id].children <= t'[id].children
  }

  /** `c`'s parent exists and its kind can contain `c`'s kind (`e.getParent().canContain(e)`). */
  predicate Fits(table: CapabilityTable, tree: map<NodeId, Node>, c: Candidate) {
    c.parent in tree && CanContain(table, tree[c.parent].kind, c.kind)
  }
}
