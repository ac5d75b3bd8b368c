/**
 * The attribute type tags of a resource schema and their `simple` flag
 * (AttributeType.java), and the access mode an attribute is declared with.
 */
module AttributeTypes {
  import opened Collections

  /**
   * The enum constants. DATE is used by the base schema (ManagedObjectType.java:111)
   * but is not among the constants of the shown enum; it is modelled as a tenth tag
   * carrying `simple = true`, so that the `start-time` attribute can be built.
   */
  datatype AttributeType = BOOLEAN | DOUBLE | FLOAT | INT | LONG | LIST | MAP | STRING | URL | DATE

  /** AttributeAccess (its source is not part of this model); the default is READ_ONLY. */
  datatype AttributeAccess = READ_ONLY | READ_WRITE

  /** The `simple` flag fixed by each constant's constructor argument. */
  function IsSimple(t: AttributeType): bool {
    match t
    case LIST => false
    case MAP => false
    case _ => true
  }

  /** The constants of the shown enum, in declaration order. */
  const ShownTags: seq<AttributeType> := [BOOLEAN, DOUBLE, FLOAT, INT, LONG, LIST, MAP, STRING, URL]

  /** Enum.toString: the constant's name, as written into template documents. */
  function TagName(t: AttributeType): string {
    match t
    case BOOLEAN => "BOOLEAN"
    case DOUBLE => "DOUBLE"
    case FLOAT => "FLOAT"
    case INT => "INT"
    case LONG => "LONG"
    case LIST => "LIST"
    case MAP => "MAP"
    case STRING => "STRING"
    case URL => "URL"
    case DATE => "DATE"
  }

  function AccessName(a: AttributeAccess): string {
    match a
    case READ_ONLY => "READ_ONLY"
    case READ_WRITE => "READ_WRITE"
  }

  /** Only the two collection tags are not simple; URL and STRING are legal collection value types. */
  lemma SimpleIffNotCollection(t: AttributeType)
    ensures !IsSimple(t) <==> t == LIST || t == MAP
    ensures IsSimple(URL) && IsSimple(STRING)
  {
  }

  /** The shown enum has exactly nine distinct constants; DATE is the only tag outside them. */
  lemma TagUniverse(t: AttributeType)
    ensures |ShownTags| == 9 && NoDuplicates(ShownTags)
    ensures t in ShownTags <==> t != DATE
    ensures forall u, v :: TagName(u) == TagName(v) ==> u == v
  {
  }
}
