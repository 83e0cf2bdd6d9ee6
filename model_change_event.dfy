/** The notifications the component emits to its caller (src/modelChangeEvent.ts). */
module ModelChangeEvents {

  import opened Wrappers
  import opened Model

  datatype ModelChangeEventType = Add | Remove

  /** `nodeData` and `linkData` are optional fields of the TypeScript interface. */
  datatype ModelChangeEvent = ModelChangeEvent(
    eventType: ModelChangeEventType,
    nodeData: Option<Node>,
    linkData: Option<Link>)

  /** An event that carries exactly one record, either a node or a link. */
  predicate CarriesOneRecord(e: ModelChangeEvent)
  {
    e.nodeData.Some? != e.linkData.Some?
  }
}
