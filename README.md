# GS2BSI transform and FilterBasisId, modelled in Dafny

This project models two pieces of verinice.

**GS2BSITransformService** turns a batch of IT-Grundschutz catalogue items into ISM elements under a selected group. The items are measures (`Massnahme`), threats (`Gefaehrdung`) and modules (`Baustein`).
- A measure becomes a `Control`.
- A threat becomes an `IncidentScenario`.
- A module first gets a new `IncidentScenarioGroup` or `ControlGroup` of its own. The module's threats or measures then go into that group.

`saveItems` then handles the new elements one by one:
- it checks that the parent can contain the element;
- it gives the element exactly one permission, for the current user;
- it saves and reloads the element;
- it links the element under its parent;
- it notifies the model updater and reports progress.

**FilterBasisId** is the composite key `(sucheId, fflId, fltId)` of the reverse-engineered Grundschutz database. It has a hand-written `equals` and `hashCode` over Java `int`s.

Files:
- `wrappers.dfy`: `Option`.
- `gs_model.dfy`: the catalogue items and the input shapes of the constructor (array, collection, single object). A Java `String` that may be null is an `Option<string>`. `Show` renders null as `"null"`, as string concatenation does.
- `ism_model.dfy`: the ISM side.
  - Element kinds, and the `canContain` rules as a table from container kind to the kinds it accepts.
  - Elements, with their parent, scope, children, permissions and description.
  - The notifications to the model updater and the calls to the progress observer.
  - A `World` that holds the element tree, the store's next id, both counters, the flag and both logs.
  - `Env`, the answers of the collaborators that are not modelled:
    - the i-th `isCanceled` poll;
    - whether the n-th save command of a run succeeds (module groups' `saveNew` and elements' `SaveElement` alike);
    - whether a reload or an update succeeds for a given id;
    - the documentation lookup;
    - the current user name.
- `transform_spec.dfy`: the service's behaviour as functions on `World`.
- `transform_lemmas.dfy`: what those functions guarantee.
- `transform_service.dfy`: the class `GS2BSITransformService`. Its fields and methods follow the Java code statement by statement. Each method is proved to produce exactly the state the matching spec function gives.
- `filter_basis_id.dfy`: the class `FilterBasisId`, Java `int` wrap-around, and the `equals`/`hashCode` laws.

Three behaviours of the code that the model keeps:
- **Cancellation.** When `isCanceled()` is true, `insertItem` returns and `run`'s loop goes on to poll again for the next item. The run does not stop at once. `RunStopsAtCancellation` shows that when cancellation stays set once it is reported, the run ends as the run over the items before it.
- **Failed saves.** A failed save ends the whole run, not only the current item's element list. `run` catches the exception.
- **`isScenario`.** The flag is set before the save executes, so a scenario whose save throws still sets it.

## Model

| member | source | states |
|---|---|---|
| TransformSpec.GenerateControl | sernet.gs.ui.rcp.main/src/sernet/verinice/iso27k/service/GS2BSITransformService.java:295-306 | A new Control under `parent`, titled `id + " " + titel` (null printed as "null"), no permissions, described by the documentation lookup (no description when the lookup throws) |
| TransformSpec.GenerateScenario | sernet.gs.ui.rcp.main/src/sernet/verinice/iso27k/service/GS2BSITransformService.java:308-318 | A new IncidentScenario under `parent`, titled `id + " " + titel` when the title is non-null and exactly "Dummy Scenario" otherwise, with no description |
| TransformSpec.Controls | sernet.gs.ui.rcp.main/src/sernet/verinice/iso27k/service/GS2BSITransformService.java:221-223 | One Control per measure of the module, in the module's order, every one under the new group |
| TransformSpec.Scenarios | sernet.gs.ui.rcp.main/src/sernet/verinice/iso27k/service/GS2BSITransformService.java:205-209 | One IncidentScenario per threat of the module, in the module's order, every one under the new group |
| TransformSpec.SaveNewGroup | sernet.gs.ui.rcp.main/src/sernet/verinice/iso27k/service/GS2BSITransformService.java:197-201 | saveNew keeps every element and adds the new group under the next id |
| TransformSpec.CreateGroup | sernet.gs.ui.rcp.main/src/sernet/verinice/iso27k/service/GS2BSITransformService.java:193-204 | Creating a module's group (save, update, childAdded) never removes an element |
| TransformSpec.TransformItem | sernet.gs.ui.rcp.main/src/sernet/verinice/iso27k/service/GS2BSITransformService.java:181-229 | transformGsElement never removes an element |
| TransformSpec.Store | sernet.gs.ui.rcp.main/src/sernet/verinice/iso27k/service/GS2BSITransformService.java:248-281 | Marking a scenario, issuing the save command and, when it succeeds, linking the element never removes an element |
| TransformSpec.Link | sernet.gs.ui.rcp.main/src/sernet/verinice/iso27k/service/GS2BSITransformService.java:262-281 | Reloading and linking a saved element never removes an element |
| TransformSpec.SaveOne | sernet.gs.ui.rcp.main/src/sernet/verinice/iso27k/service/GS2BSITransformService.java:235-282 | One iteration of saveItems' loop never removes an element |
| TransformSpec.SaveAll | sernet.gs.ui.rcp.main/src/sernet/verinice/iso27k/service/GS2BSITransformService.java:231-285 | saveItems never removes an element |
| TransformSpec.Insert | sernet.gs.ui.rcp.main/src/sernet/verinice/iso27k/service/GS2BSITransformService.java:162-173 | A cancelled poll changes nothing and reports no failure; a null item (or one that is no catalogue item) yields no elements, so nothing is saved or counted |
| TransformProperties.SaveNewGroupGrows | sernet.gs.ui.rcp.main/src/sernet/verinice/iso27k/service/GS2BSITransformService.java:197-201 | saveNew uses the next id and counts one save command; it keeps ids fresh and every existing element intact, and leaves the counter, flag and logs unchanged |
| TransformProperties.CreateGroupGrows | sernet.gs.ui.rcp.main/src/sernet/verinice/iso27k/service/GS2BSITransformService.java:190-228 | A module's group creation keeps ids fresh and existing elements intact; it counts and reports nothing; on success the group exists |
| TransformProperties.TransformItemGrows | sernet.gs.ui.rcp.main/src/sernet/verinice/iso27k/service/GS2BSITransformService.java:181-229 | transformGsElement keeps ids fresh and elements intact, counts and reports nothing, and every element it yields has an existing parent |
| TransformProperties.SaveOneGrows | sernet.gs.ui.rcp.main/src/sernet/verinice/iso27k/service/GS2BSITransformService.java:236-282 | One saveItems iteration keeps ids fresh, existing elements intact, and only lets the counter, isScenario and the logs grow |
| TransformProperties.SaveAllGrows | sernet.gs.ui.rcp.main/src/sernet/verinice/iso27k/service/GS2BSITransformService.java:231-285 | saveItems keeps ids fresh and existing elements intact, and never lowers the counter or resets isScenario |
| TransformProperties.InsertGrows | sernet.gs.ui.rcp.main/src/sernet/verinice/iso27k/service/GS2BSITransformService.java:162-173 | insertItem keeps ids fresh and existing elements intact, and never lowers the counter or resets isScenario |
| TransformSpec.RunFrom | sernet.gs.ui.rcp.main/src/sernet/verinice/iso27k/service/GS2BSITransformService.java:144-155 | The rest of run's loop never removes an element, and only an item's insertion can end it with a caught exception |
| TransformSpec.RunBatch | sernet.gs.ui.rcp.main/src/sernet/verinice/iso27k/service/GS2BSITransformService.java:144-155 | run never removes an element |
| TransformProperties.RunFromGrows | sernet.gs.ui.rcp.main/src/sernet/verinice/iso27k/service/GS2BSITransformService.java:149-151 | The rest of run's loop keeps ids fresh and elements intact (no rollback of earlier saves), and never lowers the counter or resets isScenario |
| TransformProperties.RunBatchGrows | sernet.gs.ui.rcp.main/src/sernet/verinice/iso27k/service/GS2BSITransformService.java:144-155 | run reports beginTask with the item count first, and then only grows the World |
| TransformProperties.SaveOneSkips | sernet.gs.ui.rcp.main/src/sernet/verinice/iso27k/service/GS2BSITransformService.java:236-247 | The error flag becomes set exactly when it was set or the parent cannot contain the element; then only the status line is reported |
| TransformProperties.SaveOneThrows | sernet.gs.ui.rcp.main/src/sernet/verinice/iso27k/service/GS2BSITransformService.java:249-260 | A throwing save reports failure and is counted as a save command; nothing is saved, linked, notified or counted as processed, but isScenario is already set for a scenario |
| TransformProperties.SaveOneSaves | sernet.gs.ui.rcp.main/src/sernet/verinice/iso27k/service/GS2BSITransformService.java:249-281 | A successful save stores the element under the next id with exactly one permission (current user, both flags), links it under its parent with the parent's scope, sends one childAdded and one processed(1), adds 1 to the counter and sets isScenario for a scenario. The tree gains only the new id, the parent only gets the new id appended to its children, and every other node is unchanged |
| TransformProperties.SaveAllAfterError | sernet.gs.ui.rcp.main/src/sernet/verinice/iso27k/service/GS2BSITransformService.java:233-247 | Once errorOccured is set, every later element is only announced: nothing is saved, counted or notified |
| TransformProperties.SaveAllFirstMisfits | sernet.gs.ui.rcp.main/src/sernet/verinice/iso27k/service/GS2BSITransformService.java:235-247 | When the first element does not fit its parent, saveItems saves nothing at all and only reports one status line per element |
| TransformProperties.SaveAllSavesFitPrefix | sernet.gs.ui.rcp.main/src/sernet/verinice/iso27k/service/GS2BSITransformService.java:231-285 | saveItems saves exactly the elements before the first misfit, in order, with consecutive ids; it sends one childAdded per saved element in list order; it raises the counter by their number; it sets isScenario exactly when one of them is a scenario |
| TransformProperties.SaveAllFrame | sernet.gs.ui.rcp.main/src/sernet/verinice/iso27k/service/GS2BSITransformService.java:231-285 | Under the same conditions, for every node: it exists afterwards exactly when it existed before or got one of the new consecutive ids; an existing node only gets the saved elements it parents appended to its children, in list order, and is otherwise unchanged |
| TransformProperties.NewChildrenOfOther | sernet.gs.ui.rcp.main/src/sernet/verinice/iso27k/service/GS2BSITransformService.java:276-278 | A node that parents none of the saved elements gets no new children, so SaveAllFrame leaves it unchanged |
| TransformProperties.SaveAllReports | sernet.gs.ui.rcp.main/src/sernet/verinice/iso27k/service/GS2BSITransformService.java:236-281 | Under the same conditions the progress log gains a status line (with the counter and title) and processed(1) per saved element, then one status line per skipped element |
| TransformProperties.SaveAllIgnoresReload | sernet.gs.ui.rcp.main/src/sernet/verinice/iso27k/service/GS2BSITransformService.java:263-275 | A failing reload is only logged and does not end the loop: saveItems' result does not depend on whether reloads succeed. A successful reload returns the parent the element was saved with, so the model links under the same parent either way |
| TransformProperties.RunFromCancelled | sernet.gs.ui.rcp.main/src/sernet/verinice/iso27k/service/GS2BSITransformService.java:162-168 | When every remaining poll reports cancellation, the rest of the run changes nothing |
| TransformProperties.RunFromPrefix | sernet.gs.ui.rcp.main/src/sernet/verinice/iso27k/service/GS2BSITransformService.java:144-168 | With cancellation set from item c on, the rest of the run equals the run over the first c items |
| TransformProperties.RunStopsAtCancellation | sernet.gs.ui.rcp.main/src/sernet/verinice/iso27k/service/GS2BSITransformService.java:144-168 | A run whose cancellation stays set from item c on ends as the run over the first c items: nothing later is transformed, saved or counted |
| TransformProperties.RunStopsAtFailedSave | sernet.gs.ui.rcp.main/src/sernet/verinice/iso27k/service/GS2BSITransformService.java:144-155 | A save that throws at item i ends the run there, with no later item polled; the run swallows the exception |
| TransformProperties.ModuleExpansion | sernet.gs.ui.rcp.main/src/sernet/verinice/iso27k/service/GS2BSITransformService.java:190-228 | A module under a group that can hold scenarios gives a new IncidentScenarioGroup and one scenario per threat, in order. Otherwise, under one that can hold controls, it gives a ControlGroup and one control per measure. Under any other group it gives nothing and issues no save. A failing group save gives nothing and only counts the save command. A save that succeeds with a failing update also gives nothing, but the saved group stays under its parent, titled, and the loaded model is not told |
| TransformProperties.ModuleGroupTitle | sernet.gs.ui.rcp.main/src/sernet/verinice/iso27k/service/GS2BSITransformService.java:193-224 | A created module group's final title is `id + " " + titel` in both branches |
| TransformProperties.ModuleSkipKeepsRunGoing | sernet.gs.ui.rcp.main/src/sernet/verinice/iso27k/service/GS2BSITransformService.java:190-228 | A module skipped because its group save throws does not end the run: with a measure after it, under a group that can hold controls, the run ends normally with the control saved under the next id and counted |
| TransformService.GS2BSITransformService.constructor | sernet.gs.ui.rcp.main/src/sernet/verinice/iso27k/service/GS2BSITransformService.java:101-118 | The item list is the array's or the collection's elements in order, and any other input (null included) is a one-item list; counters start at 0 and isScenario at false |
| TransformService.GS2BSITransformService.Run | sernet.gs.ui.rcp.main/src/sernet/verinice/iso27k/service/GS2BSITransformService.java:144-155 | numberOfControls becomes the list's length; the new state is RunBatch of the old one |
| TransformService.GS2BSITransformService.InsertItem | sernet.gs.ui.rcp.main/src/sernet/verinice/iso27k/service/GS2BSITransformService.java:162-173 | The new state and the outcome are Insert of the old state |
| TransformService.GS2BSITransformService.SaveNew | sernet.gs.ui.rcp.main/src/sernet/verinice/iso27k/service/GS2BSITransformService.java:197-201 | On success the state is SaveNewGroup of the old one; on failure only the save command is counted; either way the outcome is the answer for the next save command |
| TransformService.GS2BSITransformService.CreateGroup | sernet.gs.ui.rcp.main/src/sernet/verinice/iso27k/service/GS2BSITransformService.java:193-204 | The new state and the outcome are CreateGroup of the old state |
| TransformService.GS2BSITransformService.TransformGsElement | sernet.gs.ui.rcp.main/src/sernet/verinice/iso27k/service/GS2BSITransformService.java:181-229 | Appends to the list exactly the elements TransformItem yields; the new state is TransformItem's |
| TransformService.GS2BSITransformService.AddScenarios | sernet.gs.ui.rcp.main/src/sernet/verinice/iso27k/service/GS2BSITransformService.java:205-209 | The loop appends one scenario per threat, in order |
| TransformService.GS2BSITransformService.AddControls | sernet.gs.ui.rcp.main/src/sernet/verinice/iso27k/service/GS2BSITransformService.java:221-223 | The loop appends one control per measure, in order |
| TransformService.GS2BSITransformService.SaveItems | sernet.gs.ui.rcp.main/src/sernet/verinice/iso27k/service/GS2BSITransformService.java:231-285 | The new state and the outcome are SaveAll of the old state with a clear error flag |
| TransformService.GS2BSITransformService.SaveElement | sernet.gs.ui.rcp.main/src/sernet/verinice/iso27k/service/GS2BSITransformService.java:235-282 | One loop iteration: new state, error flag and outcome are SaveOne's |
| TransformService.GS2BSITransformService.StoreElement | sernet.gs.ui.rcp.main/src/sernet/verinice/iso27k/service/GS2BSITransformService.java:248-281 | Mark a scenario, issue the save command, then link on success, as Store gives them |
| TransformService.GS2BSITransformService.LinkElement | sernet.gs.ui.rcp.main/src/sernet/verinice/iso27k/service/GS2BSITransformService.java:262-281 | Reload, link, notify, report and count, as Link gives them |
| Reveng.FilterBasisId.Empty | sernet.gs.reveng/src/sernet/gs/reveng/FilterBasisId.java:14-15 | The no-argument constructor leaves sucheId null and both ints 0 |
| Reveng.FilterBasisId.constructor | sernet.gs.reveng/src/sernet/gs/reveng/FilterBasisId.java:17-21 | Stores its three arguments unchanged |
| Reveng.FilterBasisId.SetSucheId | sernet.gs.reveng/src/sernet/gs/reveng/FilterBasisId.java:27-29 | The getter then returns the new value; the other two fields stay |
| Reveng.FilterBasisId.SetFflId | sernet.gs.reveng/src/sernet/gs/reveng/FilterBasisId.java:35-37 | The getter then returns the new value; the other two fields stay |
| Reveng.FilterBasisId.SetFltId | sernet.gs.reveng/src/sernet/gs/reveng/FilterBasisId.java:43-45 | The getter then returns the new value; the other two fields stay |
| Reveng.FilterBasisId.Equals | sernet.gs.reveng/src/sernet/gs/reveng/FilterBasisId.java:47-61 | True for the object itself, false for null and for an object of another class |
| Reveng.EqualsIff | sernet.gs.reveng/src/sernet/gs/reveng/FilterBasisId.java:56-60 | Two ids are equal exactly when their sucheIds are both null or equal strings and fflId and fltId agree |
| Reveng.EqualsReflexive | sernet.gs.reveng/src/sernet/gs/reveng/FilterBasisId.java:48-49 | equals is reflexive |
| Reveng.EqualsSymmetric | sernet.gs.reveng/src/sernet/gs/reveng/FilterBasisId.java:47-61 | equals is symmetric |
| Reveng.EqualsTransitive | sernet.gs.reveng/src/sernet/gs/reveng/FilterBasisId.java:47-61 | equals is transitive |
| Reveng.FilterBasisId.HashCode | sernet.gs.reveng/src/sernet/gs/reveng/FilterBasisId.java:63-71 | hashCode, computed step by step on Java ints, is `37*(37*(37*17 + h) + fflId) + fltId` wrapped once to 32 bits, with h = 0 for a null sucheId; the wrap after each step changes nothing |
| Reveng.HashConsistent | sernet.gs.reveng/src/sernet/gs/reveng/FilterBasisId.java:47-71 | Equal ids have equal hash codes, whatever String.hashCode is |

## Left out

- The second constructor, which takes a custom `ItemTransformer` (GS2BSITransformService.java:134-138). The model always uses the default transformer, which calls `transformGsElement` (lines 72-78).
- The persistence layer, the reload, the documentation lookup, the authentication service and the progress observer's cancellation are not modelled inside: `Env` gives their answers. A save's outcome is keyed by its position among the run's save commands, and a cancellation answer by the item's position.
- The store and the loaded model's cache are one tree here. `updateEntity`'s effect on the store is not modelled, only whether it throws (`Env.updateOk`). The difference between a stored and a cached element is not modelled either.
- A reload that succeeds returns the parent the element was saved with. The properties and children it also loads are not modelled. So the reload cannot change where an element is linked, and `SaveAllIgnoresReload` only shows that a failed reload neither ends the loop nor changes what is saved.
- `Messages.getString` texts are not modelled. The progress log records the arguments: the item count for `beginTask`, and the counter and the title for `setTaskName`.
- Logging is left out.
- The title the store keeps for a module group whose `updateEntity` throws is not modelled. The group is saved with a first title (`id titel` for a scenario group, `titel`, possibly null, for a control group), and only the in-memory copy is retitled before the update. The model's single tree holds the final title from the save on.
- The permissions and icon that `CnAElementFactory.saveNew` gives a new module group are not modelled. The group is stored with no permissions.
- A null entry inside a module's list of threats or measures would make `generateScenario`/`generateControl` throw. The model's lists hold no nulls.
- An element whose parent is null would make `e.getParent().canContain(e)` throw. Every generated element has a parent.
- TransformSpec.Store: `numberProcessed` is an unbounded integer. Java's `int` would wrap after 2^31 - 1 saves.
- The accessors `isScenario()`, `getNumberOfControls()` and `getNumberProcessed()`, and the FilterBasisId getters, are functions that read their field. They carry no contract of their own, and the setters' contracts are stated through the getters.
- Reveng.FilterBasisId.Equals: `==` on two distinct but equal non-null strings is false in Java, but the `equals` branch then returns true. The model therefore compares string values.
- `String.hashCode` is a parameter of `HashCode`: the model does not fix its value.
