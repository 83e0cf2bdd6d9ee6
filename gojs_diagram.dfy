/**
 * The synchronisation driver of src/GojsDiagram.tsx: the component that owns a
 * diagram engine, seeds it from the props model on mount, reconciles it against
 * every new props model by identity, and clears it on unmount.
 *
 * The engine's model is represented by its two live record sequences. The
 * engine calls the component makes are recorded, in order, in `trace`; the raw
 * change events each call makes the engine raise are given by `StepEvents`.
 */
module GojsDiagramComponent {

  import opened Model
  import opened Identity
  import H = ModelChangedHandlers

  /** One call the component makes on the engine. */
  datatype Step =
    | StartTransaction
    | AddNodes(addedNodes: seq<Node>)
    | RemoveNodes(removedNodes: seq<Node>)
    | AddLinks(addedLinks: seq<Link>)
    | RemoveLinks(removedLinks: seq<Link>)
    | ApplyIncrementalJson
    | UpdateAllRelationshipsFromData
    | UpdateAllTargetBindings
    | CommitTransaction(transactionName: string)

  const UPDATE_LABEL: string := "updated"

  /** `actual` holds every field of `wanted` with the same value. */
  ghost predicate Shows(wanted: Fields, actual: Fields)
  {
    forall f :: f in wanted ==> f in actual && actual[f] == wanted[f]
  }

  /** Merge the fields of `m` into `n` when both have the same key. */
  function MergeFields(n: Node, m: Node): (r: Node)
    ensures r.key == n.key
    ensures n.key == m.key ==> Shows(m.fields, r.fields)
    ensures forall f :: f in n.fields && f !in m.fields ==> f in r.fields && r.fields[f] == n.fields[f]
    ensures n.key != m.key ==> r == n
  {
    if n.key == m.key then Node(n.key, n.fields + m.fields) else n
  }

  /** The field update of `applyIncrementalJson` over `modifiedNodeData` as the
      engine is taken to perform it: each modified record in turn merges its
      fields into the engine nodes with its key. */
  function ApplyModifiedNodes(engine: seq<Node>, modified: seq<Node>): (r: seq<Node>)
    ensures |r| == |engine|
    ensures forall i :: 0 <= i < |r| ==> r[i].key == engine[i].key
    decreases |modified|
  {
    if |modified| == 0 then engine
    else
      var merged := seq(|engine|, i requires 0 <= i < |engine| => MergeFields(engine[i], modified[0]));
      ApplyModifiedNodes(merged, modified[1..])
  }

  /** An engine node whose key no modified record has keeps its fields. */
  lemma {:induction false} ApplyModifiedUntouched(engine: seq<Node>, modified: seq<Node>, i: nat)
    requires i < |engine| && engine[i].key !in Ids(modified, NodeKey)
    ensures ApplyModifiedNodes(engine, modified)[i] == engine[i]
    decreases |modified|
  {
    if |modified| > 0 {
      IdsCons(modified, NodeKey);
      var merged := seq(|engine|, j requires 0 <= j < |engine| => MergeFields(engine[j], modified[0]));
      ApplyModifiedUntouched(merged, modified[1..], i);
    }
  }

  /** When the modified records have distinct keys, every engine node with the
      key of a modified record shows that record's fields afterwards. */
  lemma {:induction false} ApplyModifiedShows(engine: seq<Node>, modified: seq<Node>, m: Node, i: nat)
    requires Unique(modified, NodeKey)
    requires m in modified && i < |engine| && engine[i].key == m.key
    ensures Shows(m.fields, ApplyModifiedNodes(engine, modified)[i].fields)
    decreases |modified|
  {
    var merged := seq(|engine|, j requires 0 <= j < |engine| => MergeFields(engine[j], modified[0]));
    if m == modified[0] {
      assert merged[i].key !in Ids(modified[1..], NodeKey) by {
        forall x | x in modified[1..] ensures x.key != m.key {
          var j :| 0 <= j < |modified[1..]| && modified[1..][j] == x;
          assert modified[j + 1] == x;
        }
      }
      ApplyModifiedUntouched(merged, modified[1..], i);
    } else {
      assert m in modified[1..];
      assert Unique(modified[1..], NodeKey) by {
        forall a, b | 0 <= a < b < |modified[1..]| ensures modified[1..][a].key != modified[1..][b].key {
          assert modified[1..][a] == modified[a + 1] && modified[1..][b] == modified[b + 1];
        }
      }
      ApplyModifiedShows(merged, modified[1..], m, i);
    }
  }

  /** Two node sequences with the same keys position by position carry the same key set. */
  lemma SameKeysSameIds(a: seq<Node>, b: seq<Node>)
    requires |a| == |b| && forall i :: 0 <= i < |a| ==> a[i].key == b[i].key
    ensures Ids(a, NodeKey) == Ids(b, NodeKey)
  {
    forall k | k in Ids(a, NodeKey) ensures k in Ids(b, NodeKey) {
      var x :| x in a && x.key == k;
      var i :| 0 <= i < |a| && a[i] == x;
      assert b[i] in b;
    }
    forall k | k in Ids(b, NodeKey) ensures k in Ids(a, NodeKey) {
      var x :| x in b && x.key == k;
      var i :| 0 <= i < |b| && b[i] == x;
      assert a[i] in a;
    }
  }

  /** The node sequence and the link sequence the engine holds after an update. */
  function UpdatedNodes(props: DiagramModel, nodes: seq<Node>): (r: seq<Node>)
    ensures Ids(r, NodeKey) == Ids(props.nodeDataArray, NodeKey)
  {
    var reconciled := Reconciled(nodes, props.nodeDataArray, NodeKey);
    ReconciledIds(nodes, props.nodeDataArray, NodeKey);
    SameKeysSameIds(ApplyModifiedNodes(reconciled, props.nodeDataArray), reconciled);
    ApplyModifiedNodes(Reconciled(nodes, props.nodeDataArray, NodeKey), props.nodeDataArray)
  }

  function UpdatedLinks(props: DiagramModel, links: seq<Link>): (r: seq<Link>)
    ensures Ids(r, LinkEnds) == Ids(props.linkDataArray, LinkEnds)
  {
    ReconciledIds(links, props.linkDataArray, LinkEnds);
    Reconciled(links, props.linkDataArray, LinkEnds)
  }

  /** With distinct modified keys all present in the engine, each modified
      record is shown by some engine node of its key. */
  lemma ModifiedAllShown(engine: seq<Node>, modified: seq<Node>)
    requires Unique(modified, NodeKey) && Ids(modified, NodeKey) <= Ids(engine, NodeKey)
    ensures forall p :: p in modified ==>
      exists n :: n in ApplyModifiedNodes(engine, modified) && n.key == p.key && Shows(p.fields, n.fields)
  {
    var updated := ApplyModifiedNodes(engine, modified);
    forall p | p in modified
      ensures exists n :: n in updated && n.key == p.key && Shows(p.fields, n.fields)
    {
      assert p.key in Ids(engine, NodeKey);
      var x :| x in engine && x.key == p.key;
      var i :| 0 <= i < |engine| && engine[i] == x;
      ApplyModifiedShows(engine, modified, p, i);
      assert updated[i] in updated;
    }
  }

  /** With distinct modified keys covering every engine key, each engine node
      shows the modified record of its key. */
  lemma EngineAllShowModified(engine: seq<Node>, modified: seq<Node>)
    requires Unique(modified, NodeKey) && Ids(engine, NodeKey) <= Ids(modified, NodeKey)
    ensures forall n :: n in ApplyModifiedNodes(engine, modified) ==>
      exists p :: p in modified && p.key == n.key && Shows(p.fields, n.fields)
  {
    var updated := ApplyModifiedNodes(engine, modified);
    forall n | n in updated
      ensures exists p :: p in modified && p.key == n.key && Shows(p.fields, n.fields)
    {
      var i :| 0 <= i < |updated| && updated[i] == n;
      assert engine[i] in engine;
      assert n.key in Ids(modified, NodeKey);
      var p :| p in modified && p.key == n.key;
      ApplyModifiedShows(engine, modified, p, i);
    }
  }

  /** What the engine renders after an update matches props: the same node keys
      and link endpoints, every props node shown with its fields, every engine
      node shown with the fields of the props node of its key, and, when neither
      side repeats a key, as many nodes as props has. */
  lemma UpdateRendersModel(props: DiagramModel, nodes: seq<Node>, links: seq<Link>)
    ensures Ids(UpdatedNodes(props, nodes), NodeKey) == Ids(props.nodeDataArray, NodeKey)
    ensures Ids(UpdatedLinks(props, links), LinkEnds) == Ids(props.linkDataArray, LinkEnds)
    ensures Unique(props.nodeDataArray, NodeKey) ==>
      forall p :: p in props.nodeDataArray ==>
        exists n :: n in UpdatedNodes(props, nodes) && n.key == p.key && Shows(p.fields, n.fields)
    ensures Unique(props.nodeDataArray, NodeKey) ==>
      forall n :: n in UpdatedNodes(props, nodes) ==>
        exists p :: p in props.nodeDataArray && p.key == n.key && Shows(p.fields, n.fields)
    ensures Unique(props.nodeDataArray, NodeKey) && Unique(nodes, NodeKey) ==>
      |UpdatedNodes(props, nodes)| == |props.nodeDataArray|
  {
    var modified := props.nodeDataArray;
    var reconciled := Reconciled(nodes, modified, NodeKey);
    ReconciledIds(nodes, modified, NodeKey);
    ReconciledIds(links, props.linkDataArray, LinkEnds);
    SameKeysSameIds(UpdatedNodes(props, nodes), reconciled);
    if Unique(modified, NodeKey) {
      ModifiedAllShown(reconciled, modified);
      EngineAllShowModified(reconciled, modified);
      if Unique(nodes, NodeKey) {
        ReconciledUnique(nodes, modified, NodeKey);
      }
    }
  }

  /** The engine calls `componentDidUpdate` makes for the four batches. */
  function UpdateTransaction(linksToAdd: seq<Link>, linksToRemove: seq<Link>,
                             nodesToAdd: seq<Node>, nodesToRemove: seq<Node>): (r: seq<Step>)
    ensures |r| == 9 && r[0] == StartTransaction && r[8] == CommitTransaction(UPDATE_LABEL)
  {
    [StartTransaction,
     AddLinks(linksToAdd), RemoveLinks(linksToRemove),
     AddNodes(nodesToAdd), RemoveNodes(nodesToRemove),
     ApplyIncrementalJson,
     UpdateAllRelationshipsFromData, UpdateAllTargetBindings,
     CommitTransaction(UPDATE_LABEL)]
  }

  /** The trace `componentDidUpdate` builds piece by piece is that transaction. */
  lemma TraceOfUpdate(trace0: seq<Step>, linksToAdd: seq<Link>, linksToRemove: seq<Link>,
                      nodesToAdd: seq<Node>, nodesToRemove: seq<Node>)
    ensures trace0 + [StartTransaction] + [AddLinks(linksToAdd), RemoveLinks(linksToRemove)]
          + [AddNodes(nodesToAdd), RemoveNodes(nodesToRemove)] + [ApplyIncrementalJson]
          + [UpdateAllRelationshipsFromData, UpdateAllTargetBindings] + [CommitTransaction(UPDATE_LABEL)]
         == trace0 + UpdateTransaction(linksToAdd, linksToRemove, nodesToAdd, nodesToRemove)
  {
  }

  /** The engine calls of one update against `props` from the engine state
      (`nodes`, `links`). */
  function UpdateSteps(props: DiagramModel, nodes: seq<Node>, links: seq<Link>): (r: seq<Step>)
    ensures |r| == 9 && r[0] == StartTransaction && r[8] == CommitTransaction(UPDATE_LABEL)
  {
    var linksToAdd := Missing(props.linkDataArray, links, LinkEnds);
    var linksToRemove := Missing(links + linksToAdd, props.linkDataArray, LinkEnds);
    var nodesToAdd := Missing(props.nodeDataArray, nodes, NodeKey);
    var nodesToRemove := Missing(nodes + nodesToAdd, props.nodeDataArray, NodeKey);
    UpdateTransaction(linksToAdd, linksToRemove, nodesToAdd, nodesToRemove)
  }

  /** When the engine already carries the identities props has, an update adds
      and removes nothing, leaves the links as they are and only refreshes the
      node fields. */
  lemma UpdateIdempotent(props: DiagramModel, nodes: seq<Node>, links: seq<Link>)
    requires Ids(nodes, NodeKey) == Ids(props.nodeDataArray, NodeKey)
    requires Ids(links, LinkEnds) == Ids(props.linkDataArray, LinkEnds)
    ensures UpdateSteps(props, nodes, links) == UpdateTransaction([], [], [], [])
    ensures UpdatedLinks(props, links) == links
    ensures UpdatedNodes(props, nodes) == ApplyModifiedNodes(nodes, props.nodeDataArray)
  {
    ReconciledIdempotent(nodes, props.nodeDataArray, NodeKey);
    ReconciledIdempotent(links, props.linkDataArray, LinkEnds);
  }

  /** A second update with the same props finds nothing to add or remove and
      leaves the links of the first update in place. */
  lemma UpdateTwice(props: DiagramModel, nodes: seq<Node>, links: seq<Link>)
    ensures var nodes1, links1 := UpdatedNodes(props, nodes), UpdatedLinks(props, links);
      && UpdateSteps(props, nodes1, links1) == UpdateTransaction([], [], [], [])
      && UpdatedLinks(props, links1) == links1
  {
    var reconciled := Reconciled(nodes, props.nodeDataArray, NodeKey);
    ReconciledIds(nodes, props.nodeDataArray, NodeKey);
    ReconciledIds(links, props.linkDataArray, LinkEnds);
    SameKeysSameIds(UpdatedNodes(props, nodes), reconciled);
    UpdateIdempotent(props, UpdatedNodes(props, nodes), UpdatedLinks(props, links));
  }

  /** A single transaction: opened first, committed last, neither in between. */
  predicate OneTransaction(steps: seq<Step>)
  {
    && |steps| >= 2
    && steps[0] == StartTransaction
    && steps[|steps| - 1].CommitTransaction?
    && forall i :: 0 < i < |steps| - 1 ==> steps[i] != StartTransaction && !steps[i].CommitTransaction?
  }

  /** An update is one transaction in which links are reconciled before nodes,
      nodes before fields, and fields before the engine recomputes bindings. */
  lemma UpdateStepOrder(props: DiagramModel, nodes: seq<Node>, links: seq<Link>)
    ensures OneTransaction(UpdateSteps(props, nodes, links))
    ensures var s := UpdateSteps(props, nodes, links);
      && |s| == 9
      && s[1].AddLinks? && s[2].RemoveLinks?
      && s[3].AddNodes? && s[4].RemoveNodes?
      && s[5] == ApplyIncrementalJson
      && s[6] == UpdateAllRelationshipsFromData && s[7] == UpdateAllTargetBindings
      && s[8] == CommitTransaction(UPDATE_LABEL)
  {
    var linksToAdd := Missing(props.linkDataArray, links, LinkEnds);
    var linksToRemove := Missing(links + linksToAdd, props.linkDataArray, LinkEnds);
    var nodesToAdd := Missing(props.nodeDataArray, nodes, NodeKey);
    var nodesToRemove := Missing(nodes + nodesToAdd, props.nodeDataArray, NodeKey);
    TransactionOrder(linksToAdd, linksToRemove, nodesToAdd, nodesToRemove);
  }

  /** The transaction's calls, for any four batches, in order. */
  lemma TransactionOrder(linksToAdd: seq<Link>, linksToRemove: seq<Link>,
                         nodesToAdd: seq<Node>, nodesToRemove: seq<Node>)
    ensures OneTransaction(UpdateTransaction(linksToAdd, linksToRemove, nodesToAdd, nodesToRemove))
    ensures var s := UpdateTransaction(linksToAdd, linksToRemove, nodesToAdd, nodesToRemove);
      && |s| == 9
      && s[1].AddLinks? && s[2].RemoveLinks?
      && s[3].AddNodes? && s[4].RemoveNodes?
      && s[5] == ApplyIncrementalJson
      && s[6] == UpdateAllRelationshipsFromData && s[7] == UpdateAllTargetBindings
      && s[8] == CommitTransaction(UPDATE_LABEL)
  {
  }

  /** The raw change events the engine raises for one call: one Insert per added
      record, one Remove per removed record, a marker for each transaction
      boundary, and none that the handlers consider for the other calls. */
  function StepEvents(step: Step): (r: seq<H.ChangedEvent>)
    ensures step.AddNodes? ==>
      |r| == |step.addedNodes| &&
      (forall k :: 0 <= k < |r| ==> H.CanHandleAddNode(r[k]) && r[k].newValue == H.NodeValue(step.addedNodes[k]))
    ensures step.RemoveNodes? ==>
      |r| == |step.removedNodes| &&
      (forall k :: 0 <= k < |r| ==> H.CanHandleRemoveNode(r[k]) && r[k].oldValue == H.NodeValue(step.removedNodes[k]))
    ensures step.AddLinks? ==>
      |r| == |step.addedLinks| &&
      (forall k :: 0 <= k < |r| ==> H.CanHandleAddLink(r[k]) && r[k].newValue == H.LinkValue(step.addedLinks[k]))
    ensures step.RemoveLinks? ==>
      |r| == |step.removedLinks| &&
      (forall k :: 0 <= k < |r| ==> H.CanHandleRemoveLink(r[k]) && r[k].oldValue == H.LinkValue(step.removedLinks[k]))
    ensures !(step.AddNodes? || step.RemoveNodes? || step.AddLinks? || step.RemoveLinks?) ==>
      forall e :: e in r ==> e.change == H.Other
  {
    match step
    case StartTransaction =>
      [H.ChangedEvent(H.Other, "StartedTransaction", H.NoValue, H.NoValue)]
    case CommitTransaction(_) =>
      [H.ChangedEvent(H.Other, "CommittedTransaction", H.NoValue, H.NoValue)]
    case AddNodes(b) =>
      seq(|b|, i requires 0 <= i < |b| =>
        H.ChangedEvent(H.Insert, H.NODE_PROPERTY_NAME, H.NoValue, H.NodeValue(b[i])))
    case RemoveNodes(b) =>
      seq(|b|, i requires 0 <= i < |b| =>
        H.ChangedEvent(H.Remove, H.NODE_PROPERTY_NAME, H.NodeValue(b[i]), H.NoValue))
    case AddLinks(b) =>
      seq(|b|, i requires 0 <= i < |b| =>
        H.ChangedEvent(H.Insert, H.LINK_PROPERTY_NAME, H.NoValue, H.LinkValue(b[i])))
    case RemoveLinks(b) =>
      seq(|b|, i requires 0 <= i < |b| =>
        H.ChangedEvent(H.Remove, H.LINK_PROPERTY_NAME, H.LinkValue(b[i]), H.NoValue))
    case _ => []
  }

  /** No raw event of `step` is reported by any handler against `props`. */
  ghost predicate StepSilent(step: Step, props: DiagramModel)
  {
    forall evt :: evt in StepEvents(step) ==> H.Silent(evt, props)
  }

  /** Inserting records whose identity props already has raises nothing the
      handlers report; neither does removing records whose identity props lacks. */
  lemma AddNodesSilent(props: DiagramModel, batch: seq<Node>)
    requires Ids(batch, NodeKey) <= Ids(props.nodeDataArray, NodeKey)
    ensures StepSilent(AddNodes(batch), props)
  {
    forall evt | evt in StepEvents(AddNodes(batch)) ensures H.Silent(evt, props) {
      var i :| 0 <= i < |batch| && StepEvents(AddNodes(batch))[i] == evt;
      assert batch[i] in batch;
    }
  }

  lemma RemoveNodesSilent(props: DiagramModel, batch: seq<Node>)
    requires Ids(batch, NodeKey) !! Ids(props.nodeDataArray, NodeKey)
    ensures StepSilent(RemoveNodes(batch), props)
  {
    forall evt | evt in StepEvents(RemoveNodes(batch)) ensures H.Silent(evt, props) {
      var i :| 0 <= i < |batch| && StepEvents(RemoveNodes(batch))[i] == evt;
      assert batch[i] in batch;
    }
  }

  lemma AddLinksSilent(props: DiagramModel, batch: seq<Link>)
    requires Ids(batch, LinkEnds) <= Ids(props.linkDataArray, LinkEnds)
    ensures StepSilent(AddLinks(batch), props)
  {
    forall evt | evt in StepEvents(AddLinks(batch)) ensures H.Silent(evt, props) {
      var i :| 0 <= i < |batch| && StepEvents(AddLinks(batch))[i] == evt;
      assert batch[i] in batch;
    }
  }

  lemma RemoveLinksSilent(props: DiagramModel, batch: seq<Link>)
    requires Ids(batch, LinkEnds) !! Ids(props.linkDataArray, LinkEnds)
    ensures StepSilent(RemoveLinks(batch), props)
  {
    forall evt | evt in StepEvents(RemoveLinks(batch)) ensures H.Silent(evt, props) {
      var i :| 0 <= i < |batch| && StepEvents(RemoveLinks(batch))[i] == evt;
      assert batch[i] in batch;
    }
  }

  /** Transaction markers and the non-structural calls raise no Insert or Remove. */
  lemma OtherStepSilent(props: DiagramModel, step: Step)
    requires !step.AddNodes? && !step.RemoveNodes? && !step.AddLinks? && !step.RemoveLinks?
    ensures StepSilent(step, props)
  {
    forall evt | evt in StepEvents(step) ensures H.Silent(evt, props) {
      assert evt.change == H.Other;
    }
  }

  /** A transaction whose insertions carry identities props has and whose
      removals carry identities props lacks raises nothing the handlers report. */
  lemma TransactionIsSilent(props: DiagramModel, linksToAdd: seq<Link>, linksToRemove: seq<Link>,
                            nodesToAdd: seq<Node>, nodesToRemove: seq<Node>)
    requires Ids(linksToAdd, LinkEnds) <= Ids(props.linkDataArray, LinkEnds)
    requires Ids(linksToRemove, LinkEnds) !! Ids(props.linkDataArray, LinkEnds)
    requires Ids(nodesToAdd, NodeKey) <= Ids(props.nodeDataArray, NodeKey)
    requires Ids(nodesToRemove, NodeKey) !! Ids(props.nodeDataArray, NodeKey)
    ensures var steps := UpdateTransaction(linksToAdd, linksToRemove, nodesToAdd, nodesToRemove);
      forall k :: 0 <= k < |steps| ==> StepSilent(steps[k], props)
  {
    var steps := UpdateTransaction(linksToAdd, linksToRemove, nodesToAdd, nodesToRemove);
    assert steps[1] == AddLinks(linksToAdd) && steps[2] == RemoveLinks(linksToRemove);
    assert steps[3] == AddNodes(nodesToAdd) && steps[4] == RemoveNodes(nodesToRemove);
    forall k | 0 <= k < |steps| ensures StepSilent(steps[k], props) {
      if k == 1 {
        AddLinksSilent(props, linksToAdd);
      } else if k == 2 {
        RemoveLinksSilent(props, linksToRemove);
      } else if k == 3 {
        AddNodesSilent(props, nodesToAdd);
      } else if k == 4 {
        RemoveNodesSilent(props, nodesToRemove);
      } else {
        OtherStepSilent(props, steps[k]);
      }
    }
  }

  /** Echo suppression: judged against the props model that caused an update,
      no handler reports any of the changes the update makes. */
  lemma UpdateIsNotEchoed(props: DiagramModel, nodes: seq<Node>, links: seq<Link>)
    ensures var steps := UpdateSteps(props, nodes, links);
      forall k :: 0 <= k < |steps| ==> StepSilent(steps[k], props)
  {
    var linksToAdd := Missing(props.linkDataArray, links, LinkEnds);
    var linksToRemove := Missing(links + linksToAdd, props.linkDataArray, LinkEnds);
    var nodesToAdd := Missing(props.nodeDataArray, nodes, NodeKey);
    var nodesToRemove := Missing(nodes + nodesToAdd, props.nodeDataArray, NodeKey);
    MissingIds(props.linkDataArray, links, LinkEnds);
    MissingIds(links + linksToAdd, props.linkDataArray, LinkEnds);
    MissingIds(props.nodeDataArray, nodes, NodeKey);
    MissingIds(nodes + nodesToAdd, props.nodeDataArray, NodeKey);
    TransactionIsSilent(props, linksToAdd, linksToRemove, nodesToAdd, nodesToRemove);
  }

  /** The component. Its fields are the engine state it drives: whether
      `myDiagram` has been created, the engine model's node and link data
      arrays, and the engine calls made since the engine was created. */
  class GojsDiagram {
    var hasDiagram: bool
    var nodes: seq<Node>
    var links: seq<Link>
    var trace: seq<Step>

    /** React constructs the component before mounting it; no engine exists yet. */
    constructor ()
      ensures !hasDiagram && nodes == [] && links == [] && trace == []
    {
      hasDiagram := false;
      nodes := [];
      links := [];
      trace := [];
    }

    /** `init` (run on mount): a new engine seeded with copies of the props arrays. */
    method Init(props: DiagramModel)
      modifies this
      ensures hasDiagram
      ensures nodes == props.nodeDataArray && links == props.linkDataArray
      ensures trace == []
    {
      hasDiagram := true;
      nodes := props.nodeDataArray;
      links := props.linkDataArray;
      trace := [];
    }

    /** `componentWillUnmount`: clear the engine. */
    method Unmount()
      requires hasDiagram
      modifies this`nodes, this`links
      ensures nodes == [] && links == []
    {
      nodes := [];
      links := [];
    }

    /** The engine's bulk addition: the given records are appended. */
    method AddNodeDataCollection(batch: seq<Node>)
      modifies this`nodes, this`trace
      ensures nodes == old(nodes) + batch
      ensures trace == old(trace) + [AddNodes(batch)]
    {
      nodes := nodes + batch;
      trace := trace + [AddNodes(batch)];
    }

    /** The engine's bulk removal: exactly the given records leave the engine. */
    method RemoveNodeDataCollection(batch: seq<Node>)
      modifies this`nodes, this`trace
      ensures nodes == Without(old(nodes), batch)
      ensures trace == old(trace) + [RemoveNodes(batch)]
    {
      nodes := Without(nodes, batch);
      trace := trace + [RemoveNodes(batch)];
    }

    method AddLinkDataCollection(batch: seq<Link>)
      modifies this`links, this`trace
      ensures links == old(links) + batch
      ensures trace == old(trace) + [AddLinks(batch)]
    {
      links := links + batch;
      trace := trace + [AddLinks(batch)];
    }

    method RemoveLinkDataCollection(batch: seq<Link>)
      modifies this`links, this`trace
      ensures links == Without(old(links), batch)
      ensures trace == old(trace) + [RemoveLinks(batch)]
    {
      links := Without(links, batch);
      trace := trace + [RemoveLinks(batch)];
    }

    /** `applyAddRemoveNodesFromModel`: add the props nodes whose key the engine
        lacks, then remove the engine nodes whose key props lacks. */
    method ReconcileNodes(props: DiagramModel) returns (nodesToAdd: seq<Node>, nodesToRemove: seq<Node>)
      modifies this`nodes, this`trace
      ensures nodesToAdd == Missing(props.nodeDataArray, old(nodes), NodeKey)
      ensures nodesToRemove == Missing(old(nodes) + nodesToAdd, props.nodeDataArray, NodeKey)
      ensures nodes == Reconciled(old(nodes), props.nodeDataArray, NodeKey)
      ensures trace == old(trace) + [AddNodes(nodesToAdd), RemoveNodes(nodesToRemove)]
    {
      nodesToAdd := Missing(props.nodeDataArray, nodes, NodeKey);
      AddNodeDataCollection(nodesToAdd);
      nodesToRemove := Missing(nodes, props.nodeDataArray, NodeKey);
      RemoveNodeDataCollection(nodesToRemove);
    }

    /** `applyAddRemoveLinksFromModel`: the same by (from, to) identity. */
    method ReconcileLinks(props: DiagramModel) returns (linksToAdd: seq<Link>, linksToRemove: seq<Link>)
      modifies this`links, this`trace
      ensures linksToAdd == Missing(props.linkDataArray, old(links), LinkEnds)
      ensures linksToRemove == Missing(old(links) + linksToAdd, props.linkDataArray, LinkEnds)
      ensures links == Reconciled(old(links), props.linkDataArray, LinkEnds)
      ensures trace == old(trace) + [AddLinks(linksToAdd), RemoveLinks(linksToRemove)]
    {
      linksToAdd := Missing(props.linkDataArray, links, LinkEnds);
      AddLinkDataCollection(linksToAdd);
      linksToRemove := Missing(links, props.linkDataArray, LinkEnds);
      RemoveLinkDataCollection(linksToRemove);
    }

    /** `applyUpdatesFromModel`: replay the props nodes as modified data. */
    method ApplyUpdatesFromModel(props: DiagramModel)
      modifies this`nodes, this`trace
      ensures nodes == ApplyModifiedNodes(old(nodes), props.nodeDataArray)
      ensures trace == old(trace) + [ApplyIncrementalJson]
    {
      nodes := ApplyModifiedNodes(nodes, props.nodeDataArray);
      trace := trace + [ApplyIncrementalJson];
    }

    /** `componentDidUpdate`: reconcile links, then nodes, then fields, and let the
        engine recompute its bindings, all inside one transaction. */
    method DidUpdate(props: DiagramModel)
      requires hasDiagram
      modifies this`nodes, this`links, this`trace
      ensures nodes == UpdatedNodes(props, old(nodes))
      ensures links == UpdatedLinks(props, old(links))
      ensures trace == old(trace) + UpdateSteps(props, old(nodes), old(links))
    {
      ghost var nodes0, links0, trace0 := nodes, links, trace;
      trace := trace + [StartTransaction];
      var linksToAdd, linksToRemove := ReconcileLinks(props);
      assert links == UpdatedLinks(props, links0);
      var nodesToAdd, nodesToRemove := ReconcileNodes(props);
      ApplyUpdatesFromModel(props);
      assert nodes == UpdatedNodes(props, nodes0);
      trace := trace + [UpdateAllRelationshipsFromData, UpdateAllTargetBindings];
      trace := trace + [CommitTransaction(UPDATE_LABEL)];
      TraceOfUpdate(trace0, linksToAdd, linksToRemove, nodesToAdd, nodesToRemove);
    }
  }
}
