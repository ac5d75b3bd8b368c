/**
 * The dynamic JSON-like values (org.jboss.dmr.ModelNode) that instance attributes
 * hold. The library's conversions and java.net.URL parsing are not part of this
 * model: they are passed in as the `Coercions` parameter.
 */
module ModelNodes {

  datatype ModelNode =
    | Undefined
    | BoolNode(b: bool)
    | IntNode(i: int)
    | StringNode(s: string)
    | ListNode(items: seq<ModelNode>)
    | ObjectNode(props: seq<(string, ModelNode)>)

  /** ModelNode.isDefined */
  predicate IsDefined(n: ModelNode) {
    !n.Undefined?
  }

  /** The ModelNode accessors validateSimpleValue calls only for their exception. */
  datatype Conversion = AsBoolean | AsDouble | AsInt | AsLong | AsString

  /**
   * `converts(c, n)` holds when accessor `c` returns normally on `n`;
   * `parsesAsUrl(n)` holds when `new URL(n.asString())` returns normally.
   */
  datatype Coercions = Coercions(converts: (Conversion, ModelNode) -> bool, parsesAsUrl: ModelNode -> bool)

  /** The least a ModelNode library does: a string node reads as a string, a boolean node as a boolean. */
  ghost predicate Sensible(co: Coercions) {
    && (forall s :: co.converts(AsString, StringNode(s)))
    && (forall b :: co.converts(AsBoolean, BoolNode(b)))
  }
}
