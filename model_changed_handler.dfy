/**
 * The four stateless handlers of src/modelChangedhandler.ts. Each tests whether
 * it applies to a raw engine change event (`canHandle`) and, when asked to
 * handle it, looks the record's identity up in the caller's model and emits at
 * most one notification. The callback of the source is modelled by the
 * returned option: `Some(e)` is one call with `e`, `None` is no call.
 */
module ModelChangedHandlers {

  import opened Wrappers
  import opened Model
  import E = ModelChangeEvents
  import Identity

  /** The kind of a raw engine change; transaction markers and property
      changes are all `Other` here. */
  datatype ChangeType = Insert | Remove | Other

  /** The old or new value a raw event carries: a node record, a link record,
      or nothing (the engine sends no value for transaction markers). */
  datatype Value = NoValue | NodeValue(node: Node) | LinkValue(link: Link)

  /** The fields of a raw engine change event the handlers read. */
  datatype ChangedEvent = ChangedEvent(
    change: ChangeType,
    propertyName: string,
    oldValue: Value,
    newValue: Value)

  const NODE_PROPERTY_NAME: string := "nodeDataArray"
  const LINK_PROPERTY_NAME: string := "linkDataArray"

  predicate CanHandleAddNode(evt: ChangedEvent)
  {
    evt.change == Insert && evt.propertyName == NODE_PROPERTY_NAME
  }

  predicate CanHandleAddLink(evt: ChangedEvent)
  {
    evt.change == Insert && evt.propertyName == LINK_PROPERTY_NAME
  }

  predicate CanHandleRemoveNode(evt: ChangedEvent)
  {
    evt.change == Remove && evt.propertyName == NODE_PROPERTY_NAME
  }

  predicate CanHandleRemoveLink(evt: ChangedEvent)
  {
    evt.change == Remove && evt.propertyName == LINK_PROPERTY_NAME
  }

  /** A node inserted into the engine is reported as added unless the caller's
      model already has a node with its key. */
  function HandleAddNode(evt: ChangedEvent, model: DiagramModel): (r: Option<E.ModelChangeEvent>)
    requires evt.newValue.NodeValue?
    ensures r.Some? <==> evt.newValue.node.key !in Identity.Ids(model.nodeDataArray, NodeKey)
    ensures r.Some? ==> r.value == E.ModelChangeEvent(E.Add, Some(evt.newValue.node), None)
  {
    if !Identity.Any(model.nodeDataArray, NodeKey, evt.newValue.node.key) then
      Some(E.ModelChangeEvent(E.Add, Some(evt.newValue.node), None))
    else
      None
  }

  /** A link inserted into the engine is reported as added unless the caller's
      model already has a link with the same endpoints. */
  function HandleAddLink(evt: ChangedEvent, model: DiagramModel): (r: Option<E.ModelChangeEvent>)
    requires evt.newValue.LinkValue?
    ensures r.Some? <==> LinkEnds(evt.newValue.link) !in Identity.Ids(model.linkDataArray, LinkEnds)
    ensures r.Some? ==> r.value == E.ModelChangeEvent(E.Add, None, Some(evt.newValue.link))
  {
    if !Identity.Any(model.linkDataArray, LinkEnds, LinkEnds(evt.newValue.link)) then
      Some(E.ModelChangeEvent(E.Add, None, Some(evt.newValue.link)))
    else
      None
  }

  /** A node removed from the engine is reported as removed only while the
      caller's model still has a node with its key. */
  function HandleRemoveNode(evt: ChangedEvent, model: DiagramModel): (r: Option<E.ModelChangeEvent>)
    requires evt.oldValue.NodeValue?
    ensures r.Some? <==> evt.oldValue.node.key in Identity.Ids(model.nodeDataArray, NodeKey)
    ensures r.Some? ==> r.value == E.ModelChangeEvent(E.Remove, Some(evt.oldValue.node), None)
  {
    if Identity.Any(model.nodeDataArray, NodeKey, evt.oldValue.node.key) then
      Some(E.ModelChangeEvent(E.Remove, Some(evt.oldValue.node), None))
    else
      None
  }

  /** A link removed from the engine is reported as removed only while the
      caller's model still has a link with the same endpoints. */
  function HandleRemoveLink(evt: ChangedEvent, model: DiagramModel): (r: Option<E.ModelChangeEvent>)
    requires evt.oldValue.LinkValue?
    ensures r.Some? <==> LinkEnds(evt.oldValue.link) in Identity.Ids(model.linkDataArray, LinkEnds)
    ensures r.Some? ==> r.value == E.ModelChangeEvent(E.Remove, None, Some(evt.oldValue.link))
  {
    if Identity.Any(model.linkDataArray, LinkEnds, LinkEnds(evt.oldValue.link)) then
      Some(E.ModelChangeEvent(E.Remove, None, Some(evt.oldValue.link)))
    else
      None
  }

  /** No raw event is accepted by two handlers. */
  lemma CanHandleExclusive(evt: ChangedEvent)
    ensures CanHandleAddNode(evt) ==> !CanHandleAddLink(evt) && !CanHandleRemoveNode(evt) && !CanHandleRemoveLink(evt)
    ensures CanHandleAddLink(evt) ==> !CanHandleRemoveNode(evt) && !CanHandleRemoveLink(evt)
    ensures CanHandleRemoveNode(evt) ==> !CanHandleRemoveLink(evt)
  {
    assert NODE_PROPERTY_NAME[0] != LINK_PROPERTY_NAME[0];
  }

  /** Every notification a handler emits carries exactly one record, the raw
      event's own value, under the type that matches the raw change. */
  lemma EmittedEventShape(evt: ChangedEvent, model: DiagramModel)
    ensures evt.newValue.NodeValue? && HandleAddNode(evt, model).Some? ==>
      var e := HandleAddNode(evt, model).value;
      E.CarriesOneRecord(e) && e.eventType == E.Add && e.nodeData == Some(evt.newValue.node)
    ensures evt.newValue.LinkValue? && HandleAddLink(evt, model).Some? ==>
      var e := HandleAddLink(evt, model).value;
      E.CarriesOneRecord(e) && e.eventType == E.Add && e.linkData == Some(evt.newValue.link)
    ensures evt.oldValue.NodeValue? && HandleRemoveNode(evt, model).Some? ==>
      var e := HandleRemoveNode(evt, model).value;
      E.CarriesOneRecord(e) && e.eventType == E.Remove && e.nodeData == Some(evt.oldValue.node)
    ensures evt.oldValue.LinkValue? && HandleRemoveLink(evt, model).Some? ==>
      var e := HandleRemoveLink(evt, model).value;
      E.CarriesOneRecord(e) && e.eventType == E.Remove && e.linkData == Some(evt.oldValue.link)
  {
  }

  /** The handlers of the source applied to one raw event emit nothing. */
  ghost predicate Silent(evt: ChangedEvent, model: DiagramModel)
  {
    && (CanHandleAddNode(evt) && evt.newValue.NodeValue? ==> HandleAddNode(evt, model) == None)
    && (CanHandleAddLink(evt) && evt.newValue.LinkValue? ==> HandleAddLink(evt, model) == None)
    && (CanHandleRemoveNode(evt) && evt.oldValue.NodeValue? ==> HandleRemoveNode(evt, model) == None)
    && (CanHandleRemoveLink(evt) && evt.oldValue.LinkValue? ==> HandleRemoveLink(evt, model) == None)
  }
}
