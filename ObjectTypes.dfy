/**
 * What each kind contributes (ManagedObjectType.java and the shown subclasses): the
 * attributes its addAttributeDescriptions adds to a template builder, and the
 * setAttribute calls its setDefaultAttributeValues makes on a new instance builder.
 */
module KindSchemas {
  import opened Wrappers
  import opened Collections
  import opened AttributeTypes
  import opened Kinds
  import opened Errors
  import opened ModelNodes
  import opened Attributes
  import opened Templates

  // ---------------------------------------------------------------- attributes

  // The description texts, as the source spells them.
  const NameTextPrefix := "The name of this "
  const StateManageableText := "Whether the object is state manageable."
  const StatisticsProviderText := "Whether the object supports the generation of statistics."
  const StateText := "The state of the managed object. Will only be available if state-manageable=true. "
  const StartTimeText := "The time represented as in RFC 3339. Will only be available if state-manageable=true."
  const DeploymentDescriptorText := "The deployment descriptor used"
  const ServersText := "A list of servers belonging to this domain"
  const ServerVendorText := "The server vendor"
  const ServerVersionText := "The server version"
  const JavaVMsText := "A list of all JVMs on the server"
  const JavaVendorText := "The JVM vendor"
  const JavaVersionText := "The JVM version"
  const NodeText := "The node the JVM is running on"
  const ServletsText := "A list of servlets contained in this web module"
  const DeploymentDescriptorValue := "This seems a bit pointless to me? If not we need to flesh out the format"


  /** An attribute as createBuilder(name, type, description).build() makes it. */
  function Plain(name: string, type_: AttributeType, description: string): Attribute {
    Attribute(name, description, type_, None, false, READ_ONLY, {})
  }

  /** The same, after setNillable(). */
  function NillablePlain(name: string, type_: AttributeType, description: string): Attribute {
    Attribute(name, description, type_, None, true, READ_ONLY, {})
  }

  /** A LIST of URLs holding the children of `handled`: setValueType(URL), addHandledChildTypes, build. */
  function UrlList(name: string, description: string, handled: set<KindClass>): Attribute {
    Attribute(name, description, LIST, Some(URL), false, READ_ONLY, handled)
  }

  /** The three attribute shapes are exactly what their builder chains produce. */
  lemma BuilderChains(name: string, type_: AttributeType, description: string, handled: seq<KindClass>)
    ensures IsSimple(type_) ==> CreateBuilder(name, type_, description).Build() == Ok(Plain(name, type_, description))
    ensures IsSimple(type_) ==>
      CreateBuilder(name, type_, description).SetNillable().Build() == Ok(NillablePlain(name, type_, description))
    ensures var d := CreateBuilder(name, LIST, description).SetValueType(URL);
      d.Ok? && d.value.AddHandledChildTypes(handled).Build() == Ok(UrlList(name, description, set k | k in handled))
    ensures WellFormed(UrlList(name, description, set k | k in handled))
  {
    assert CreateBuilder(name, LIST, description).handled + (set k | k in handled) == set k | k in handled;
  }

  /**
   * ManagedObjectType.addAttributeDescriptions. The `name` description uses the
   * builder's getType(), which the shown template builder lacks; `typeName` stands for it.
   */
  function BaseSchema(typeName: string): seq<Attribute> {
    [ Plain("name", STRING, NameTextPrefix + typeName),
      Plain("state-manageable", BOOLEAN, StateManageableText),
      Plain("statistics-provider", BOOLEAN, StatisticsProviderText),
      Plain("event-provider", BOOLEAN, StateManageableText),
      NillablePlain("state", STRING, StateText),
      NillablePlain("start-time", DATE, StartTimeText) ]
  }

  /** DeployedObjectType.addAttributeDescriptions. */
  function DeployedObjectSchema(kind: ConcreteKind): seq<Attribute> {
    BaseSchema(Name(kind)) + [Plain("deployment-descriptor", STRING, DeploymentDescriptorText)]
  }

  /** What each kind adds after the base attributes, in order. */
  function OwnSchema(kind: ConcreteKind): seq<Attribute> {
    match kind
    case DomainClass => [UrlList("servers", ServersText, {ServerClass})]
    case ServerClass =>
      [ Plain("serverVendor", STRING, ServerVendorText),
        Plain("serverVersion", STRING, ServerVersionText),
        UrlList("javaVMs", JavaVMsText, {JvmClass}),
        UrlList("deployedObjects", JavaVMsText,
          {ApplicationClass, AppClientModuleClass, WebModuleClass, EJBModuleClass}) ]
    case JvmClass =>
      [ Plain("java-vendor", STRING, JavaVendorText),
        Plain("java-version", STRING, JavaVersionText),
        Plain("node", STRING, NodeText) ]
    case WebModuleClass =>
      [ Plain("deployment-descriptor", STRING, DeploymentDescriptorText),
        UrlList("servlets", ServletsText, {ServletClass}) ]
    case ApplicationClass => [Plain("deployment-descriptor", STRING, DeploymentDescriptorText)]
    case AppClientModuleClass => [Plain("deployment-descriptor", STRING, DeploymentDescriptorText)]
    case EJBModuleClass => [Plain("deployment-descriptor", STRING, DeploymentDescriptorText)]
    case NullClass => []
    case ServletClass => []
  }

  /**
   * The attributes each kind's addAttributeDescriptions adds, in order: the base ones,
   * then its own; the builder's type is taken to be the kind name. ModuleType, ApplicationType, AppClientModuleType and EJBModuleType are
   * not part of this model: they are taken to add nothing to DeployedObjectType's;
   * NullType and ServletType are taken to add nothing to the base.
   */
  function Schema(kind: ConcreteKind): seq<Attribute> {
    BaseSchema(Name(kind)) + OwnSchema(kind)
  }

  function Names(attrs: seq<Attribute>): seq<string> {
    seq(|attrs|, i requires 0 <= i < |attrs| => attrs[i].name)
  }

  /**
   * The base attributes come first for every kind: name, state-manageable,
   * statistics-provider and event-provider are required, state and start-time nillable,
   * and none of them holds children.
   */
  lemma BaseSchemaShape(typeName: string)
    ensures Names(BaseSchema(typeName)) == ["name", "state-manageable", "statistics-provider", "event-provider", "state", "start-time"]
    ensures forall i :: 0 <= i < 4 ==> !BaseSchema(typeName)[i].nillable
    ensures BaseSchema(typeName)[4].nillable && BaseSchema(typeName)[5].nillable
    ensures forall a :: a in BaseSchema(typeName) ==> a.handledChildTypes == {} && WellFormed(a)
  {
  }

  lemma OwnSchemaWellFormed(kind: ConcreteKind)
    ensures forall a :: a in OwnSchema(kind) ==> WellFormed(a)
  {
    match kind
    case DomainClass =>
    case ServerClass =>
    case JvmClass =>
    case WebModuleClass =>
    case ApplicationClass =>
    case AppClientModuleClass =>
    case EJBModuleClass =>
    case NullClass =>
    case ServletClass =>
  }

  /** Every attribute of every schema is well-formed: each builder chain above succeeds. */
  lemma SchemaWellFormed(kind: ConcreteKind)
    ensures forall a :: a in Schema(kind) ==> WellFormed(a)
  {
    BaseSchemaShape(Name(kind));
    OwnSchemaWellFormed(kind);
    forall a | a in Schema(kind)
      ensures WellFormed(a)
    {
      if a !in BaseSchema(Name(kind)) {
        assert a in OwnSchema(kind);
      }
    }
  }

  /** The attributes a Domain and a Server add, and the classes their child attributes hold. */
  lemma DomainAndServerSchemas()
    ensures Names(OwnSchema(DomainClass)) == ["servers"]
    ensures OwnSchema(DomainClass)[0] == UrlList("servers", ServersText, {ServerClass})
    ensures Names(OwnSchema(ServerClass)) == ["serverVendor", "serverVersion", "javaVMs", "deployedObjects"]
    ensures OwnSchema(ServerClass)[2].handledChildTypes == {JvmClass}
    ensures OwnSchema(ServerClass)[3].handledChildTypes ==
      {ApplicationClass, AppClientModuleClass, WebModuleClass, EJBModuleClass}
    ensures OwnSchema(ServerClass)[2].handledChildTypes !! OwnSchema(ServerClass)[3].handledChildTypes
  {
  }

  /** A Jvm adds three required STRING attributes and holds no children. */
  lemma JvmSchema()
    ensures Names(OwnSchema(JvmClass)) == ["java-vendor", "java-version", "node"]
    ensures forall a :: a in OwnSchema(JvmClass) ==> a.type_ == STRING && !a.nillable && a.handledChildTypes == {}
  {
  }

  /** A WebModule adds the deployed-object attribute, then `servlets`, which holds Servlets. */
  lemma WebModuleSchema()
    ensures Names(OwnSchema(WebModuleClass)) == ["deployment-descriptor", "servlets"]
    ensures OwnSchema(WebModuleClass)[1].handledChildTypes == {ServletClass}
    ensures Schema(WebModuleClass) == DeployedObjectSchema(WebModuleClass) + [OwnSchema(WebModuleClass)[1]]
  {
  }

  /** Every class a kind's attributes hold children of is a concrete class. */
  lemma SchemaHandlesConcreteOnly(kind: ConcreteKind)
    ensures forall a, c :: a in Schema(kind) && c in a.handledChildTypes ==> IsConcrete(c)
  {
    BaseSchemaShape(Name(kind));
    forall a, c | a in Schema(kind) && c in a.handledChildTypes
      ensures IsConcrete(c)
    {
      assert a in OwnSchema(kind);
    }
  }

  /** The template builder after adding `attrs` in order. */
  function AddAll(d: TemplateDraft, attrs: seq<Attribute>): TemplateDraft {
    if attrs == [] then d else AddAll(d, attrs[..|attrs| - 1]).AddAttribute(attrs[|attrs| - 1])
  }

  lemma {:induction false} AddAllValid(d: TemplateDraft, attrs: seq<Attribute>)
    requires d.Valid()
    ensures AddAll(d, attrs).Valid()
    ensures AddAll(d, attrs).kind == d.kind
  {
    if attrs != [] {
      AddAllValid(d, attrs[..|attrs| - 1]);
      AddAttributeSpec(AddAll(d, attrs[..|attrs| - 1]), attrs[|attrs| - 1]);
    }
  }

  /** The builder a kind's addAttributeDescriptions leaves behind. */
  function SchemaDraft(kind: ConcreteKind): TemplateDraft {
    AddAll(EmptyDraft(kind), Schema(kind))
  }

  /** The children map after createChildType for each attribute of `attrs` that holds children. */
  function ChildrenFrom(m: map<string, set<KindClass>>, attrs: seq<Attribute>): map<string, set<KindClass>> {
    if attrs == [] then m
    else
      var prev := ChildrenFrom(m, attrs[..|attrs| - 1]);
      var a := attrs[|attrs| - 1];
      if a.handledChildTypes != {} then prev[a.name := a.handledChildTypes] else prev
  }

  lemma {:induction false} AddAllChildren(d: TemplateDraft, attrs: seq<Attribute>)
    ensures AddAll(d, attrs).children == ChildrenFrom(d.children, attrs)
  {
    if attrs != [] {
      AddAllChildren(d, attrs[..|attrs| - 1]);
    }
  }

  lemma {:induction false} ChildrenFromAppend(m: map<string, set<KindClass>>, xs: seq<Attribute>, ys: seq<Attribute>)
    ensures ChildrenFrom(m, xs + ys) == ChildrenFrom(ChildrenFrom(m, xs), ys)
    decreases |ys|
  {
    if ys == [] {
      assert xs + ys == xs;
    } else {
      assert (xs + ys)[..|xs + ys| - 1] == xs + ys[..|ys| - 1];
      ChildrenFromAppend(m, xs, ys[..|ys| - 1]);
    }
  }

  lemma {:induction false} ChildrenFromNone(m: map<string, set<KindClass>>, attrs: seq<Attribute>)
    requires forall a :: a in attrs ==> a.handledChildTypes == {}
    ensures ChildrenFrom(m, attrs) == m
  {
    if attrs != [] {
      assert attrs[|attrs| - 1] in attrs;
      ChildrenFromNone(m, attrs[..|attrs| - 1]);
    }
  }

  /** Only a kind's own attributes record children: the base attributes hold none. */
  lemma SchemaDraftChildren(kind: ConcreteKind)
    ensures SchemaDraft(kind).children == ChildrenFrom(map[], OwnSchema(kind))
  {
    AddAllChildren(EmptyDraft(kind), Schema(kind));
    ChildrenFromAppend(map[], BaseSchema(Name(kind)), OwnSchema(kind));
    BaseSchemaShape(Name(kind));
    ChildrenFromNone(map[], BaseSchema(Name(kind)));
  }

  lemma ChildrenFromSnoc(m: map<string, set<KindClass>>, xs: seq<Attribute>, a: Attribute)
    ensures ChildrenFrom(m, xs + [a]) ==
      (if a.handledChildTypes != {} then ChildrenFrom(m, xs)[a.name := a.handledChildTypes] else ChildrenFrom(m, xs))
  {
    assert (xs + [a])[..|xs|] == xs;
  }

  /** The child attributes each kind declares, and the classes each holds. */
  function OwnChildren(kind: ConcreteKind): map<string, set<KindClass>> {
    match kind
    case DomainClass => map["servers" := {ServerClass}]
    case ServerClass =>
      map["javaVMs" := {JvmClass}, "deployedObjects" := {ApplicationClass, AppClientModuleClass, WebModuleClass, EJBModuleClass}]
    case WebModuleClass => map["servlets" := {ServletClass}]
    case _ => map[]
  }

  lemma ServerChildrenFrom()
    ensures ChildrenFrom(map[], OwnSchema(ServerClass)) == OwnChildren(ServerClass)
  {
    var own := OwnSchema(ServerClass);
    ChildrenFromSnoc(map[], [], own[0]);
    ChildrenFromSnoc(map[], [own[0]], own[1]);
    ChildrenFromSnoc(map[], [own[0], own[1]], own[2]);
    ChildrenFromSnoc(map[], [own[0], own[1], own[2]], own[3]);
    assert [] + [own[0]] == [own[0]] && [own[0]] + [own[1]] == [own[0], own[1]];
    assert [own[0], own[1]] + [own[2]] == [own[0], own[1], own[2]];
    assert [own[0], own[1], own[2]] + [own[3]] == own;
    assert ChildrenFrom(map[], []) == map[];
    assert ChildrenFrom(map[], [own[0], own[1]]) == map[];
    assert ChildrenFrom(map[], [own[0], own[1], own[2]]) == map["javaVMs" := {JvmClass}];
  }

  lemma WebModuleChildrenFrom()
    ensures ChildrenFrom(map[], OwnSchema(WebModuleClass)) == OwnChildren(WebModuleClass)
  {
    var own := OwnSchema(WebModuleClass);
    ChildrenFromSnoc(map[], [], own[0]);
    ChildrenFromSnoc(map[], [own[0]], own[1]);
    assert [] + [own[0]] == [own[0]] && [own[0]] + [own[1]] == own;
    assert ChildrenFrom(map[], []) == map[];
  }

  lemma {:induction false} OwnChildrenFrom(kind: ConcreteKind)
    ensures ChildrenFrom(map[], OwnSchema(kind)) == OwnChildren(kind)
  {
    match kind
    case ServerClass => ServerChildrenFrom();
    case WebModuleClass => WebModuleChildrenFrom();
    case DomainClass =>
      ChildrenFromSnoc(map[], [], OwnSchema(kind)[0]);
      assert [] + [OwnSchema(kind)[0]] == OwnSchema(kind);
    case _ => ChildrenFromNone(map[], OwnSchema(kind));
  }

  /**
   * The children map each kind's template builder ends with: a Domain records Servers under
   * `servers`, a Server Jvms under `javaVMs` and the deployed kinds under
   * `deployedObjects`, a WebModule Servlets under `servlets`; the other kinds none.
   */
  lemma SchemaChildren(kind: ConcreteKind)
    ensures SchemaDraft(kind).children == OwnChildren(kind)
  {
    SchemaDraftChildren(kind);
    OwnChildrenFrom(kind);
  }

  /** No class is held by two child attributes of one kind, so every template's inversion succeeds. */
  lemma OwnChildrenUnambiguous(kind: ConcreteKind)
    ensures Unambiguous(OwnChildren(kind))
  {
  }

  /** Adds `attrs` to the builder one by one, in order. */
  method AddAttributes(b: TemplateBuilder, attrs: seq<Attribute>)
    requires b.Current().Valid()
    modifies b
    ensures b.Current() == AddAll(old(b.Current()), attrs) && b.Current().Valid()
  {
    var i := 0;
    while i < |attrs|
      invariant 0 <= i <= |attrs|
      invariant b.Current() == AddAll(old(b.Current()), attrs[..i]) && b.Current().Valid()
    {
      assert attrs[..i + 1][..i] == attrs[..i];
      b.AddAttribute(attrs[i]);
      i := i + 1;
    }
    assert attrs[..i] == attrs;
  }

  /** addAttributeDescriptions, dispatched on the kind: adds the schema to the builder in order. */
  method AddAttributeDescriptions(kind: ConcreteKind, b: TemplateBuilder)
    requires b.Current().Valid()
    modifies b
    ensures b.Current() == AddAll(old(b.Current()), Schema(kind)) && b.Current().Valid()
  {
    AddAttributes(b, Schema(kind));
  }

  // ---------------------------------------------------------------- defaults

  /** What JvmType's defaults read from the running system: `java.vendor`, and the host name (None when unknown). */
  datatype Environment = Environment(javaVendor: string, hostName: Option<string>)

  /** ManagedObjectType.setDefaultAttributeValues: the name and three false flags. */
  function BaseDefaults(name: string): seq<(string, ModelNode)> {
    [ ("name", StringNode(name)),
      ("state-manageable", BoolNode(false)),
      ("statistics-provider", BoolNode(false)),
      ("event-provider", BoolNode(false)) ]
  }

  /**
   * What each kind's override sets after the base defaults. JvmType's fails when the
   * host name cannot be resolved; DeployedObjectType's is inherited by the deployed kinds.
   */
  function OwnDefaults(kind: ConcreteKind, env: Environment): Result<seq<(string, ModelNode)>, Error> {
    match kind
    case ServerClass => Ok([("serverVendor", StringNode("Server Co")), ("serverVersion", StringNode("3.7.3"))])
    case JvmClass =>
      if env.hostName.None? then Err(UnknownHost)
      else Ok([ ("java-vendor", StringNode(env.javaVendor)),
                ("java-version", StringNode("java.version")),
                ("node", StringNode(env.hostName.value)) ])
    case ApplicationClass => Ok(DeployedObjectDefaults())
    case AppClientModuleClass => Ok(DeployedObjectDefaults())
    case EJBModuleClass => Ok(DeployedObjectDefaults())
    case WebModuleClass => Ok(DeployedObjectDefaults())
    case _ => Ok([])
  }

  function DeployedObjectDefaults(): seq<(string, ModelNode)> {
    [("deployment-descriptor", StringNode(DeploymentDescriptorValue))]
  }

  /** The setAttribute calls of a kind's setDefaultAttributeValues, in order: super's first. */
  function Defaults(kind: ConcreteKind, name: string, env: Environment): Result<seq<(string, ModelNode)>, Error> {
    match OwnDefaults(kind, env)
    case Err(e) => Err(e)
    case Ok(own) => Ok(BaseDefaults(name) + own)
  }

  function DefaultNames(ds: seq<(string, ModelNode)>): set<string> {
    set d | d in ds :: d.0
  }

  /** The names of the attributes that must have a value at build: required, and holding no children. */
  function RequiredNames(attrs: seq<Attribute>): set<string> {
    set a | a in attrs && !a.nillable && a.handledChildTypes == {} :: a.name
  }

  lemma DefaultNamesAppend(xs: seq<(string, ModelNode)>, ys: seq<(string, ModelNode)>)
    ensures DefaultNames(xs + ys) == DefaultNames(xs) + DefaultNames(ys)
  {
  }

  lemma RequiredNamesAppend(xs: seq<Attribute>, ys: seq<Attribute>)
    ensures RequiredNames(xs + ys) == RequiredNames(xs) + RequiredNames(ys)
  {
  }

  /** The base defaults set exactly the base attributes that are required. */
  lemma BaseDefaultsCover(typeName: string, name: string)
    ensures RequiredNames(BaseSchema(typeName)) == DefaultNames(BaseDefaults(name))
  {
    var b := BaseSchema(typeName);
    var ds := BaseDefaults(name);
    assert b[0] in b && b[1] in b && b[2] in b && b[3] in b;
    assert ds[0].0 == "name" && ds[1].0 == "state-manageable";
    assert ds[2].0 == "statistics-provider" && ds[3].0 == "event-provider";
  }

  /** Each kind's own defaults cover its own required attributes. */
  lemma OwnDefaultsCover(kind: ConcreteKind, env: Environment)
    requires OwnDefaults(kind, env).Ok?
    ensures RequiredNames(OwnSchema(kind)) <= DefaultNames(OwnDefaults(kind, env).value)
  {
    var own := OwnSchema(kind);
    var ds := OwnDefaults(kind, env).value;
    match kind
    case ServerClass =>
      assert ds[0].0 == "serverVendor" && ds[1].0 == "serverVersion";
    case JvmClass =>
      assert ds[0].0 == "java-vendor" && ds[1].0 == "java-version" && ds[2].0 == "node";
    case WebModuleClass =>
      assert ds[0].0 == "deployment-descriptor";
    case ApplicationClass =>
      assert ds[0].0 == "deployment-descriptor";
    case AppClientModuleClass =>
      assert ds[0].0 == "deployment-descriptor";
    case EJBModuleClass =>
      assert ds[0].0 == "deployment-descriptor";
    case DomainClass =>
    case NullClass =>
    case ServletClass =>
  }

  /**
   * The defaults fail only for a Jvm on an unresolvable host. When they succeed they give
   * every required attribute that holds no children a value: only nillable and
   * child-holding attributes can be missing at build.
   */
  lemma DefaultsFailOnlyForJvm(kind: ConcreteKind, name: string, env: Environment)
    ensures Defaults(kind, name, env).Err? <==> kind == JvmClass && env.hostName.None?
    ensures Defaults(kind, name, env).Err? ==> Defaults(kind, name, env).error == UnknownHost
  {
  }

  lemma DefaultsCoverRequired(kind: ConcreteKind, name: string, env: Environment)
    requires Defaults(kind, name, env).Ok?
    ensures RequiredNames(Schema(kind)) <= DefaultNames(Defaults(kind, name, env).value)
  {
    CoverPieces(kind, name, env);
    CoverFromPieces(Schema(kind), Defaults(kind, name, env).value,
      BaseSchema(Name(kind)) + OwnSchema(kind), BaseDefaults(name) + OwnDefaults(kind, env).value);
  }

  lemma CoverFromPieces(s: seq<Attribute>, d: seq<(string, ModelNode)>, s': seq<Attribute>, d': seq<(string, ModelNode)>)
    requires s == s' && d == d' && RequiredNames(s') <= DefaultNames(d')
    ensures RequiredNames(s) <= DefaultNames(d)
  {
  }

  lemma CoverPieces(kind: ConcreteKind, name: string, env: Environment)
    requires OwnDefaults(kind, env).Ok?
    ensures RequiredNames(BaseSchema(Name(kind)) + OwnSchema(kind)) <= DefaultNames(BaseDefaults(name) + OwnDefaults(kind, env).value)
  {
    BaseDefaultsCover(Name(kind), name);
    OwnDefaultsCover(kind, env);
    CoverAppend(BaseSchema(Name(kind)), OwnSchema(kind), BaseDefaults(name), OwnDefaults(kind, env).value);
  }

  lemma CoverAppend(bs: seq<Attribute>, os: seq<Attribute>, bd: seq<(string, ModelNode)>, od: seq<(string, ModelNode)>)
    requires RequiredNames(bs) <= DefaultNames(bd) && RequiredNames(os) <= DefaultNames(od)
    ensures RequiredNames(bs + os) <= DefaultNames(bd + od)
  {
    DefaultNamesAppend(bd, od);
    RequiredNamesAppend(bs, os);
  }

  /** The shown default values: Server vendor and version, and the Jvm's literal java-version. */
  lemma ShownDefaults(name: string, env: Environment)
    ensures Defaults(ServerClass, name, env).value[4..] ==
      [("serverVendor", StringNode("Server Co")), ("serverVersion", StringNode("3.7.3"))]
    ensures env.hostName.Some? ==> Defaults(JvmClass, name, env).value[5] == ("java-version", StringNode("java.version"))
    ensures Defaults(DomainClass, name, env) == Ok(BaseDefaults(name))
  {
    assert BaseDefaults(name) + [] == BaseDefaults(name);
  }
}
