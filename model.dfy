/**
 * The application model handed to the component as props: node records,
 * link records and the aggregate of both (src/model.ts).
 */
module Model {

  /** The extra fields a record carries besides its identity (for instance `color`).
      The component never inspects them; the engine renders them. */
  type Fields = map<string, string>

  /** `BaseNodeModel`: a node is identified by its key. */
  datatype Node = Node(key: string, fields: Fields)

  /** `LinkModel`: a link joins the node keyed `from` to the node keyed `to`. */
  datatype Link = Link(from: string, to: string, fields: Fields)

  /** `DiagramModel`: the declarative snapshot supplied as props. */
  datatype DiagramModel = DiagramModel(nodeDataArray: seq<Node>, linkDataArray: seq<Link>)

  /** Identity of a node: its key. */
  function NodeKey(n: Node): string
  {
    n.key
  }

  /** Identity of a link: the pair of its endpoints. */
  function LinkEnds(l: Link): (string, string)
  {
    (l.from, l.to)
  }
}
