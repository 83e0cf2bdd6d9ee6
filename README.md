# react-gojs synchronisation core in Dafny

react-gojs wraps a GoJS diagram in a React component. The caller owns a
declarative `DiagramModel`: a node array whose records are identified by `key`,
and a link array whose records are identified by the pair `(from, to)`. The
component keeps a GoJS engine in step with that model.

- On mount it seeds the engine with copies of the two arrays.
- On every props update it reconciles the engine against the new model by
  identity. Inside one transaction it handles links first, then nodes: it adds
  what the engine lacks and removes what props lacks. It then replays the props
  nodes as field updates and commits.
- On unmount it clears the engine.

Four stateless change handlers classify raw engine change events. Each reports
one node or link addition or removal to the caller, but only when the caller's
model does not already reflect it.

The modules are:

- `Wrappers` (`wrappers.dfy`): the optional value of the TypeScript
  `T | undefined`.
- `Model` (`model.dfy`) and `ModelChangeEvents` (`model_change_event.dfy`): the
  record types of `src/model.ts` and `src/modelChangeEvent.ts`. A record's extra
  fields, such as the tests' `color`, are a `map<string, string>`.
- `Identity` (`identity.dfy`): the identity-based filters shared by nodes and
  links. Every filter takes the identity function as a parameter:
  - `FindIndex` is `findIndex`;
  - `Any` is `some`;
  - `Missing` is `filter(… findIndex(…) === -1)`;
  - `Without` is the engine's bulk removal.

  The module also defines `Reconciled`, the specification of one
  add-then-remove pass, and the lemmas about it.
- `ModelChangedHandlers` (`model_changed_handler.dfy`): the four
  `canHandle`/`handle` pairs. Each `handle` returns an `Option`: `Some(e)` stands
  for the one callback call with `e`, and `None` for no call.
- `GojsDiagramComponent` (`gojs_diagram.dfy`): the engine calls as `Step`s, the
  raw events the engine raises for them, the specification of a whole update,
  and the class `GojsDiagram`.
  - The class fields are `hasDiagram` (whether `myDiagram` exists), the engine's
    `nodes` and `links`, and `trace`, the engine calls made so far.
  - The methods are `Init`, `Unmount`, `ReconcileNodes`, `ReconcileLinks`,
    `ApplyUpdatesFromModel` and `DidUpdate`.
  - Each method's contract ties the new state to the specification functions.
    Separate lemmas prove what those functions promise.

Records are values, so an `Object.assign` copy of a record equals the record.
The engine calls are modelled as follows:
- A bulk add appends its batch.
- A bulk remove removes exactly the records of its batch.
- `applyIncrementalJson` merges the fields of each modified node into the
  engine nodes with its key.
- An added record raises one `Insert` event that carries it as `newValue`.
- A removed record raises one `Remove` event that carries it as `oldValue`.

These are assumptions about GoJS. The repository does not define them.

## Model

| member | source | states |
|---|---|---|
| Identity.FindIndex | src/GojsDiagram.tsx:60 | The index is -1 exactly when no element has the identity. Otherwise it is the first element with that identity. |
| Identity.Any | src/modelChangedhandler.ts:24-25 | `some` over an identity test is true exactly when the identity occurs in the sequence. |
| Identity.Missing | src/GojsDiagram.tsx:59-60 | A record is in the list exactly when it is in the filtered array and its identity is absent from the other array. |
| Identity.Without | src/GojsDiagram.tsx:66 | After a bulk removal, a record remains exactly when it was there and is not in the batch. |
| Identity.Retain | src/GojsDiagram.tsx:63-65 | A record is kept exactly when its identity is in the kept set. |
| Identity.Reconciled | src/GojsDiagram.tsx:58-79 | One add-then-remove pass. Every record it leaves comes from the engine or from props and carries an identity props has. It holds at most as many records as the two inputs together. |
| Identity.MissingAppend | src/GojsDiagram.tsx:59-61 | The to-add list is an order-preserving filter: filtering a concatenation gives the concatenation of the filtered parts. |
| Identity.MissingIds | src/GojsDiagram.tsx:59-65 | Every identity in a to-add or to-remove list comes from the filtered array and is absent from the other array. |
| Identity.MissingEmpty | src/GojsDiagram.tsx:59-65 | A to-add or to-remove list is empty if and only if every identity of the filtered array occurs in the other array. |
| Identity.ReconciledShape | src/GojsDiagram.tsx:58-66 | After a pass the engine holds the engine records whose identity props still has, in engine order, followed by the props records whose identity it lacked, in props order. No surviving record is replaced. |
| Identity.ReconcileBatches | src/GojsDiagram.tsx:62-66 | The removal batch, computed after the additions, is exactly the old engine records whose identity props lacks. No record added in the pass is removed, and every record whose identity props keeps stays. |
| Identity.ReconciledIds | src/GojsDiagram.tsx:58-79 | After a pass the engine's identity set equals the props identity set, in both directions. |
| Identity.ReconciledIdempotent | src/GojsDiagram.tsx:58-79 | When the identity sets already agree, both lists are empty and the engine sequence is unchanged. |
| Identity.ReconciledTwice | src/GojsDiagram.tsx:58-79 | A second pass against the same props changes nothing. |
| Identity.ReconciledUnique | src/GojsDiagram.tsx:58-66 | If the engine and props each have distinct identities, the result has distinct identities and exactly as many records as props. |
| ModelChangedHandlers.CanHandleAddNode | src/modelChangedhandler.ts:19-21 | Accepts exactly the Insert events on `nodeDataArray`. |
| ModelChangedHandlers.CanHandleAddLink | src/modelChangedhandler.ts:34-36 | Accepts exactly the Insert events on `linkDataArray`. |
| ModelChangedHandlers.CanHandleRemoveNode | src/modelChangedhandler.ts:50-52 | Accepts exactly the Remove events on `nodeDataArray`. |
| ModelChangedHandlers.CanHandleRemoveLink | src/modelChangedhandler.ts:66-68 | Accepts exactly the Remove events on `linkDataArray`. |
| ModelChangedHandlers.HandleAddNode | src/modelChangedhandler.ts:23-28 | Emits `{Add, nodeData = newValue}` exactly when no model node has the new value's key. Otherwise it emits nothing. |
| ModelChangedHandlers.HandleAddLink | src/modelChangedhandler.ts:38-44 | Emits `{Add, linkData = newValue}` exactly when no model link has the same `from` and `to`. |
| ModelChangedHandlers.HandleRemoveNode | src/modelChangedhandler.ts:54-60 | Emits `{Remove, nodeData = oldValue}` exactly when some model node has the old value's key. |
| ModelChangedHandlers.HandleRemoveLink | src/modelChangedhandler.ts:70-77 | Emits `{Remove, linkData = oldValue}` exactly when some model link has the same `from` and `to`. |
| ModelChangedHandlers.CanHandleExclusive | src/modelChangedhandler.ts:19-21 | The four `canHandle` tests (lines 19-21, 34-36, 50-52 and 66-68) are pairwise exclusive, so at most one handler accepts a raw event. |
| ModelChangedHandlers.EmittedEventShape | src/modelChangedhandler.ts:26-75 | Every emitted event carries exactly one record: the raw event's own value, unmodified. Its type is `Add` for inserts and `Remove` for removes. |
| GojsDiagramComponent.MergeFields | src/GojsDiagram.tsx:82-87 | This is assumed GoJS behaviour for one modified record. The key stays the same. On a key match, every field of the modified record is shown and every field it lacks keeps its old value. Otherwise the node is unchanged. |
| GojsDiagramComponent.ApplyModifiedNodes | src/GojsDiagram.tsx:81-90 | The field update keeps the engine's length and the key at every position. |
| GojsDiagramComponent.ApplyModifiedShows | src/GojsDiagram.tsx:81-90 | If the modified keys are distinct, an engine node with a modified record's key afterwards shows every field of that record. |
| GojsDiagramComponent.UpdatedNodes | src/GojsDiagram.tsx:39-40 | The nodes after node reconciliation and the field update carry exactly the props node keys. |
| GojsDiagramComponent.UpdatedLinks | src/GojsDiagram.tsx:38 | The links after link reconciliation carry exactly the props link endpoints. |
| GojsDiagramComponent.UpdateTransaction | src/GojsDiagram.tsx:36-44 | An update makes nine calls. They open with the start and close with the commit labelled "updated". |
| GojsDiagramComponent.UpdateSteps | src/GojsDiagram.tsx:36-79 | From any engine state, an update makes nine calls, from the start to the commit labelled "updated". |
| GojsDiagramComponent.StepEvents | src/GojsDiagram.tsx:62-78 | This is the assumed GoJS event feed. A bulk addition or removal raises one event per record, in batch order, carrying that record. The matching handler, and only it, accepts that event. Every other call raises only `Other` events. |
| GojsDiagramComponent.ModifiedAllShown | src/GojsDiagram.tsx:81-90 | Every modified record whose key the engine has is shown by an engine node with that key. |
| GojsDiagramComponent.EngineAllShowModified | src/GojsDiagram.tsx:81-90 | If every engine key is a modified key, each engine node shows the fields of the modified record with its key. |
| GojsDiagramComponent.UpdateRendersModel | src/GojsDiagram.tsx:36-44 | After an update the engine has exactly the props node keys and link endpoints. With distinct props keys, every props node is shown with its fields and every engine node shows the props node with its key. With distinct keys on both sides, the node count equals the props count. This is what the tests assert at src/GojsDiagram.test.tsx:150-164. |
| GojsDiagramComponent.UpdateIdempotent | src/GojsDiagram.tsx:36-79 | When the engine's identity sets match props, all four batches are empty and the links are unchanged. Only node fields are refreshed. |
| GojsDiagramComponent.UpdateTwice | src/GojsDiagram.tsx:36-79 | A second update with the same props adds and removes nothing and leaves the links in place. |
| GojsDiagramComponent.UpdateStepOrder | src/GojsDiagram.tsx:36-44 | An update makes nine calls as one transaction: one start first, one commit labelled "updated" last, and neither in between. In between come links, then nodes, then field updates, then the two binding refreshes. |
| GojsDiagramComponent.TransactionOrder | src/GojsDiagram.tsx:36-44 | For any four batches the calls form one transaction, in the source's order: links, nodes, the field update, then the two refreshes. |
| GojsDiagramComponent.AddNodesSilent | src/modelChangedhandler.ts:23-28 | Inserting nodes whose keys props has raises nothing any handler reports. |
| GojsDiagramComponent.RemoveNodesSilent | src/modelChangedhandler.ts:54-60 | Removing nodes whose keys props lacks raises nothing any handler reports. |
| GojsDiagramComponent.AddLinksSilent | src/modelChangedhandler.ts:38-44 | Inserting links whose endpoints props has raises nothing any handler reports. |
| GojsDiagramComponent.RemoveLinksSilent | src/modelChangedhandler.ts:70-77 | Removing links whose endpoints props lacks raises nothing any handler reports. |
| GojsDiagramComponent.OtherStepSilent | src/GojsDiagram.tsx:37-43 | Transaction markers, the field update and the binding refreshes raise no event that any handler reports. |
| GojsDiagramComponent.TransactionIsSilent | src/GojsDiagram.tsx:36-44 | If the insertions carry identities props has and the removals carry identities props lacks, no call of the transaction raises anything a handler reports. |
| GojsDiagramComponent.UpdateIsNotEchoed | src/GojsDiagram.tsx:59-78 | Judged against the props that caused it, no engine call of an update raises an event that any of the four handlers reports. |
| GojsDiagramComponent.GojsDiagram.constructor | src/GojsDiagram.tsx:24-26 | Before mounting there is no engine and both collections are empty. |
| GojsDiagramComponent.GojsDiagram.Init | src/GojsDiagram.tsx:45-51 | After mounting an engine exists, and its nodes and links equal the props arrays element for element (src/GojsDiagram.test.tsx:77-79). |
| GojsDiagramComponent.GojsDiagram.Unmount | src/GojsDiagram.tsx:32-34 | Unmounting leaves both engine collections empty (src/GojsDiagram.test.tsx:142-147). |
| GojsDiagramComponent.GojsDiagram.AddNodeDataCollection | src/GojsDiagram.tsx:62 | The bulk node addition appends its batch and is recorded. |
| GojsDiagramComponent.GojsDiagram.RemoveNodeDataCollection | src/GojsDiagram.tsx:66 | The bulk node removal removes exactly its batch and is recorded. |
| GojsDiagramComponent.GojsDiagram.AddLinkDataCollection | src/GojsDiagram.tsx:74 | The bulk link addition appends its batch and is recorded. |
| GojsDiagramComponent.GojsDiagram.RemoveLinkDataCollection | src/GojsDiagram.tsx:78 | The bulk link removal removes exactly its batch and is recorded. |
| GojsDiagramComponent.GojsDiagram.ReconcileNodes | src/GojsDiagram.tsx:58-67 | The to-add list is the props nodes whose key the engine lacks. The to-remove list is computed from the engine after the additions. The engine ends as `Reconciled`, and exactly the two bulk calls are recorded. |
| GojsDiagramComponent.GojsDiagram.ReconcileLinks | src/GojsDiagram.tsx:69-79 | The same as `ReconcileNodes`, by `(from, to)` identity. |
| GojsDiagramComponent.GojsDiagram.ApplyUpdatesFromModel | src/GojsDiagram.tsx:81-90 | The props nodes are merged into the engine nodes as modified data. |
| GojsDiagramComponent.GojsDiagram.DidUpdate | src/GojsDiagram.tsx:36-44 | The engine ends in the state `UpdatedNodes`/`UpdatedLinks` describe. The calls made are exactly `UpdateSteps`: links, then nodes, then fields, inside one start/commit pair. |

## Left out

- The React plumbing is not modelled: `render` (src/GojsDiagram.tsx:52-56), the constructor and the props interface hold no logic. `PureComponent` does: its shallow props comparison skips `componentDidUpdate` when no prop has changed. `DidUpdate` runs on every call instead. `UpdateIdempotent` shows that a call with props that already match adds and removes nothing.
- `componentDidMount` is not modelled separately. It only calls `init`, which `Init` models.
- The `createDiagram` factory and `diagramId` are not passed to the model. `Init` only records that an engine now exists.
- GoJS is not modelled. Its bulk calls, `applyIncrementalJson` and its change events follow the assumed behaviour stated above. The repository does not define them.
- ApplyModifiedNodes: field updates merge into key-matching nodes only. `modifiedLinkData` and `linkKeyProperty: 'key'` (src/GojsDiagram.tsx:86-88) leave the links unchanged, because a link record has no `key`.
- `updateAllRelationshipsFromData` and `updateAllTargetBindings` (src/GojsDiagram.tsx:41-42) are recorded as steps of the trace and nothing else. The view they recompute is not part of this model.
- GoJS side effects of removing a node are not modelled, such as dropping the links attached to it. GoJS's renaming of duplicate node keys is not modelled either.
- Aliasing is not modelled. Records are values, so the difference between `init`'s array-only copy and the `Object.assign` copies made during reconciliation is invisible.
- ModelChangedHandlers.HandleAddNode: it and the other three handlers require the raw event to carry a record of the right kind in `newValue` or `oldValue`. In the source only a null or undefined value throws (src/modelChangedhandler.ts:25, 41, 56, 73). A record of the other kind reads as `undefined`. `AddNodeModelChangedHandler` then finds no match and emits the link as `nodeData` (line 26). `AddLinkModelChangedHandler` likewise emits a node as `linkData` (line 42). The two Remove handlers emit nothing. The model excludes both cases, because an accepted event on `nodeDataArray` or `linkDataArray` always carries a record of the matching kind.
- The handlers are never registered as an engine listener in src/GojsDiagram.tsx, and this model does not install them either. `UpdateIsNotEchoed` states what they would report if they were applied to the calls of an update.
- Several features are absent from the source and from this model: group events, event buffering and flush, listener teardown, selection, keyed links, and deferred initialisation by size polling.
- GojsDiagramComponent.UpdateIsNotEchoed: it is stated for every props model, including one that repeats a node key. With repeated keys it holds only because a bulk addition is modelled as a plain append. GoJS renames the second copy's key, and that copy's Insert would then carry a key props lacks, so `AddNodeModelChangedHandler` would report it.
- `Unmount` does not lower `hasDiagram`. The source keeps `myDiagram` after `clear()`.
