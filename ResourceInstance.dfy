/**
 * Resource instances (ResourceInstance.java): the builders an example is assembled
 * with, the checks `build` makes against each builder's template, and the tree of
 * instances it produces.
 */
module Instances {
  import opened Wrappers
  import opened Collections
  import opened AttributeTypes
  import opened Kinds
  import opened Errors
  import opened ModelNodes
  import opened Attributes
  import opened Templates
  import opened TemplateCatalog
  import opened KindSchemas
  import opened Urls

  // ---------------------------------------------------------------- child groups

  /**
   * One entry of a LinkedHashMap<String, Set<...>> of children: the attribute name and
   * the children under it, in insertion order.
   */
  datatype Group<T> = Group(attribute: string, members: seq<T>)

  function GroupNames<T>(gs: seq<Group<T>>): (names: seq<string>)
    ensures |names| == |gs| && forall i :: 0 <= i < |gs| ==> names[i] == gs[i].attribute
  {
    seq(|gs|, i requires 0 <= i < |gs| => gs[i].attribute)
  }

  /**
   * get the set under `key`, creating and putting an empty one on first use, then add.
   * Builders and instances are compared by identity and every one added is new, so the
   * add always appends.
   */
  function AddToGroup<T>(gs: seq<Group<T>>, key: string, x: T): seq<Group<T>> {
    if gs == [] then [Group(key, [x])]
    else if gs[0].attribute == key then [gs[0].(members := gs[0].members + [x])] + gs[1..]
    else [gs[0]] + AddToGroup(gs[1..], key, x)
  }

  /** Adding under a name no group has appends a new one-member group at the end. */
  lemma {:induction false} AddToGroupNew<T>(gs: seq<Group<T>>, key: string, x: T)
    requires key !in GroupNames(gs)
    ensures AddToGroup(gs, key, x) == gs + [Group(key, [x])]
  {
    if gs != [] {
      assert GroupNames(gs)[0] == gs[0].attribute;
      assert GroupNames(gs[1..]) == GroupNames(gs)[1..];
      AddToGroupNew(gs[1..], key, x);
      assert gs == [gs[0]] + gs[1..];
    }
  }

  /** Adding under the name of group `k`, the first with that name, appends to that group only. */
  lemma {:induction false} AddToGroupAt<T>(gs: seq<Group<T>>, key: string, x: T, k: nat)
    requires k < |gs| && gs[k].attribute == key && forall i :: 0 <= i < k ==> gs[i].attribute != key
    ensures AddToGroup(gs, key, x) == gs[k := gs[k].(members := gs[k].members + [x])]
  {
    if k > 0 {
      AddToGroupAt(gs[1..], key, x, k - 1);
      assert gs == [gs[0]] + gs[1..];
    }
  }

  /**
   * With distinct names the names stay distinct: an existing name keeps the names as
   * they were, a new one is appended.
   */
  lemma AddToGroupNames<T>(gs: seq<Group<T>>, key: string, x: T)
    requires NoDuplicates(GroupNames(gs))
    ensures key in GroupNames(gs) ==> GroupNames(AddToGroup(gs, key, x)) == GroupNames(gs)
    ensures key !in GroupNames(gs) ==> GroupNames(AddToGroup(gs, key, x)) == GroupNames(gs) + [key]
    ensures NoDuplicates(GroupNames(AddToGroup(gs, key, x)))
  {
    if key in GroupNames(gs) {
      var k :| 0 <= k < |gs| && GroupNames(gs)[k] == key;
      forall i | 0 <= i < k
        ensures gs[i].attribute != key
      {
        assert GroupNames(gs)[i] != GroupNames(gs)[k];
      }
      AddToGroupAt(gs, key, x, k);
    } else {
      AddToGroupNew(gs, key, x);
    }
  }

  // ---------------------------------------------------------------- value validation

  /** A ModelNode accessor, whose exception is the failure. */
  function Convert(c: Conversion, type_: AttributeType, value: ModelNode, co: Coercions): Outcome<Error> {
    if co.converts(c, value) then Pass else Fail(NotConvertible(type_))
  }

  /**
   * validateSimpleValue: the accessor the type calls for, `new URL(asString())` for a
   * URL, and "Unknown type" for every other type (DATE among them).
   */
  function SimpleCheck(type_: AttributeType, name: string, value: ModelNode, co: Coercions): Outcome<Error> {
    match type_
    case BOOLEAN => Convert(AsBoolean, type_, value, co)
    case DOUBLE => Convert(AsDouble, type_, value, co)
    case FLOAT => Convert(AsDouble, type_, value, co)
    case INT => Convert(AsInt, type_, value, co)
    case LONG => Convert(AsLong, type_, value, co)
    case STRING => Convert(AsString, type_, value, co)
    case URL =>
      if !co.converts(AsString, value) then Fail(NotConvertible(type_))
      else if co.parsesAsUrl(value) then Pass
      else Fail(InvalidUrl(name))
    case _ => Fail(UnknownType(type_))
  }

  /** The items from index `i` on, each checked as `type_`; the first failure wins. */
  function ItemsFrom(type_: AttributeType, name: string, items: seq<ModelNode>, i: nat, co: Coercions): Outcome<Error>
    decreases |items| - i
  {
    if i >= |items| then Pass
    else match SimpleCheck(type_, name, items[i], co)
      case Fail(e) => Fail(e)
      case Pass => ItemsFrom(type_, name, items, i + 1, co)
  }

  function PropValues(props: seq<(string, ModelNode)>): (vs: seq<ModelNode>)
    ensures |vs| == |props| && forall i :: 0 <= i < |props| ==> vs[i] == props[i].1
  {
    seq(|props|, i requires 0 <= i < |props| => props[i].1)
  }

  /**
   * validateAttributeValue: a simple type is checked directly, a LIST must be a list
   * node and a MAP an object node (both report "is not a list"), and their entries are
   * checked as the value type. A type that is not simple is LIST or MAP, so the
   * source's final "Unknown type" branch cannot be taken.
   */
  function ValueCheck(def: Attribute, value: ModelNode, co: Coercions): Outcome<Error>
    requires WellFormed(def)
  {
    if IsSimple(def.type_) then SimpleCheck(def.type_, def.name, value, co)
    else if def.type_ == LIST then
      if !value.ListNode? then Fail(NotAList(def.name))
      else ItemsFrom(def.valueType.value, def.name, value.items, 0, co)
    else
      if !value.ObjectNode? then Fail(NotAList(def.name))
      else ItemsFrom(def.valueType.value, def.name, PropValues(value.props), 0, co)
  }

  /** validateAttributeValue, with its loops over the list items and the object's properties. */
  method ValidateAttributeValue(def: Attribute, value: ModelNode, co: Coercions) returns (o: Outcome<Error>)
    requires WellFormed(def)
    ensures o == ValueCheck(def, value, co)
  {
    if IsSimple(def.type_) {
      return SimpleCheck(def.type_, def.name, value, co);
    }
    var items: seq<ModelNode>;
    if def.type_ == LIST {
      if !value.ListNode? {
        return Fail(NotAList(def.name));
      }
      items := value.items;
    } else {
      if !value.ObjectNode? {
        return Fail(NotAList(def.name));
      }
      items := PropValues(value.props);
    }
    var i := 0;
    while i < |items|
      invariant 0 <= i <= |items|
      invariant ItemsFrom(def.valueType.value, def.name, items, 0, co) == ItemsFrom(def.valueType.value, def.name, items, i, co)
    {
      var s := SimpleCheck(def.valueType.value, def.name, items[i], co);
      if s.Fail? {
        return s;
      }
      i := i + 1;
    }
    return Pass;
  }

  /** The entries from `i` on pass exactly when each of them passes its simple check. */
  lemma {:induction false} ItemsFromPassIff(type_: AttributeType, name: string, items: seq<ModelNode>, i: nat, co: Coercions)
    ensures ItemsFrom(type_, name, items, i, co).Pass? <==>
      forall j :: i <= j < |items| ==> SimpleCheck(type_, name, items[j], co).Pass?
    decreases |items| - i
  {
    if i < |items| {
      ItemsFromPassIff(type_, name, items, i + 1, co);
    }
  }

  /**
   * A value passes exactly when: for a simple type, its own check passes; for a LIST,
   * it is a list node whose every item passes as the value type; for a MAP, it is an
   * object node whose every property value does.
   */
  lemma ValueCheckPassIff(def: Attribute, value: ModelNode, co: Coercions)
    requires WellFormed(def)
    ensures IsSimple(def.type_) ==> (ValueCheck(def, value, co).Pass? <==> SimpleCheck(def.type_, def.name, value, co).Pass?)
    ensures def.type_ == LIST ==> (ValueCheck(def, value, co).Pass? <==>
      value.ListNode? && forall j :: 0 <= j < |value.items| ==> SimpleCheck(def.valueType.value, def.name, value.items[j], co).Pass?)
    ensures def.type_ == MAP ==> (ValueCheck(def, value, co).Pass? <==>
      value.ObjectNode? && forall j :: 0 <= j < |value.props| ==> SimpleCheck(def.valueType.value, def.name, value.props[j].1, co).Pass?)
  {
    if def.type_ == LIST && value.ListNode? {
      ItemsFromPassIff(def.valueType.value, def.name, value.items, 0, co);
    }
    if def.type_ == MAP && value.ObjectNode? {
      ItemsFromPassIff(def.valueType.value, def.name, PropValues(value.props), 0, co);
    }
  }

  /**
   * A simple check passes only for the nine handled types, when the accessor the type
   * calls for returns normally (for a URL, also when it parses); a DATE never passes.
   */
  lemma SimpleCheckSpec(type_: AttributeType, name: string, value: ModelNode, co: Coercions)
    ensures type_ == DATE || type_ == LIST || type_ == MAP ==> SimpleCheck(type_, name, value, co) == Fail(UnknownType(type_))
    ensures type_ == STRING ==> (SimpleCheck(type_, name, value, co).Pass? <==> co.converts(AsString, value))
    ensures type_ == URL ==> (SimpleCheck(type_, name, value, co).Pass? <==> co.converts(AsString, value) && co.parsesAsUrl(value))
    ensures type_ == URL && co.converts(AsString, value) && !co.parsesAsUrl(value) ==> SimpleCheck(type_, name, value, co) == Fail(InvalidUrl(name))
    ensures type_ == DOUBLE || type_ == FLOAT ==> (SimpleCheck(type_, name, value, co).Pass? <==> co.converts(AsDouble, value))
  {
  }

  // ---------------------------------------------------------------- builder checks

  /**
   * A ResourceInstance.Builder: its template, its parent (an index into the builders
   * made so far), name and URL, the attributes set on it, and its child builders grouped
   * under the attribute that holds them.
   */
  datatype BuilderNode = BuilderNode(
    template: ResourceTemplate,
    parent: Option<nat>,
    name: string,
    url: string,
    attributes: OrderedMap<string, ModelNode>,
    children: seq<Group<nat>>)

  /** The first of `keys` from index `i` on that `known` lacks. */
  function FirstUnknown(keys: seq<string>, known: map<string, Attribute>, i: nat): Option<string>
    decreases |keys| - i
  {
    if i >= |keys| then None
    else if keys[i] !in known then Some(keys[i])
    else FirstUnknown(keys, known, i + 1)
  }

  /**
   * The check buildInternal makes for one template attribute: with no value or an
   * undefined one, it must hold children or be nillable; otherwise the value is validated.
   */
  function EntryCheck(node: BuilderNode, name: string, co: Coercions): Outcome<Error>
    requires TemplateWellFormed(node.template) && name in node.template.attributeMap.values
  {
    var def := node.template.attributeMap.values[name];
    var value := node.attributes.Get(name);
    if value.None? || !IsDefined(value.value) then
      if name in GroupNames(node.children) then Pass
      else if !def.nillable then Fail(NotSet(name))
      else Pass
    else ValueCheck(def, value.value, co)
  }

  /** The template's attributes from index `i` on, in the template's order; the first failure wins. */
  function EntriesFrom(node: BuilderNode, i: nat, co: Coercions): Outcome<Error>
    requires TemplateWellFormed(node.template)
    decreases |node.template.attributeMap.keys| - i
  {
    var keys := node.template.attributeMap.keys;
    if i >= |keys| then Pass
    else match EntryCheck(node, keys[i], co)
      case Fail(e) => Fail(e)
      case Pass => EntriesFrom(node, i + 1, co)
  }

  /**
   * The checks buildInternal makes before creating the instance: every set attribute,
   * then every child attribute, must be in the template; then each template attribute
   * in turn.
   */
  function CheckNode(node: BuilderNode, co: Coercions): Outcome<Error>
    requires TemplateWellFormed(node.template)
  {
    var known := node.template.attributeMap.values;
    match FirstUnknown(node.attributes.keys, known, 0)
    case Some(n) => Fail(UnknownAttribute(n))
    case None =>
      match FirstUnknown(GroupNames(node.children), known, 0)
      case Some(n) => Fail(UnknownAttribute(n))
      case None => EntriesFrom(node, 0, co)
  }

  /** The three loops at the start of buildInternal. */
  method CheckBuilder(node: BuilderNode, co: Coercions) returns (o: Outcome<Error>)
    requires TemplateWellFormed(node.template)
    ensures o == CheckNode(node, co)
  {
    var known := node.template.attributeMap.values;
    var keys := node.attributes.keys;
    var i := 0;
    while i < |keys|
      invariant 0 <= i <= |keys| && FirstUnknown(keys, known, 0) == FirstUnknown(keys, known, i)
    {
      if keys[i] !in known {
        return Fail(UnknownAttribute(keys[i]));
      }
      i := i + 1;
    }
    var names := GroupNames(node.children);
    i := 0;
    while i < |names|
      invariant 0 <= i <= |names| && FirstUnknown(names, known, 0) == FirstUnknown(names, known, i)
    {
      if names[i] !in known {
        return Fail(UnknownAttribute(names[i]));
      }
      i := i + 1;
    }
    var tkeys := node.template.attributeMap.keys;
    i := 0;
    while i < |tkeys|
      invariant 0 <= i <= |tkeys| && EntriesFrom(node, 0, co) == EntriesFrom(node, i, co)
    {
      var name := tkeys[i];
      var def := known[name];
      var value := node.attributes.Get(name);
      if value.None? || !IsDefined(value.value) {
        if name !in names && !def.nillable {
          return Fail(NotSet(name));
        }
      } else {
        var v := ValidateAttributeValue(def, value.value, co);
        if v.Fail? {
          return v;
        }
      }
      i := i + 1;
    }
    return Pass;
  }

  /** FirstUnknown finds nothing exactly when every key from `i` on is known, and otherwise an unknown one. */
  lemma {:induction false} FirstUnknownSpec(keys: seq<string>, known: map<string, Attribute>, i: nat)
    ensures FirstUnknown(keys, known, i).None? <==> forall j :: i <= j < |keys| ==> keys[j] in known
    ensures FirstUnknown(keys, known, i).Some? ==>
      FirstUnknown(keys, known, i).value in keys && FirstUnknown(keys, known, i).value !in known
    decreases |keys| - i
  {
    if i < |keys| {
      FirstUnknownSpec(keys, known, i + 1);
    }
  }

  /** The entries from `i` on pass exactly when each one does. */
  lemma {:induction false} EntriesFromPassIff(node: BuilderNode, i: nat, co: Coercions)
    requires TemplateWellFormed(node.template)
    ensures EntriesFrom(node, i, co).Pass? <==>
      forall j :: i <= j < |node.template.attributeMap.keys| ==>
        EntryCheck(node, node.template.attributeMap.keys[j], co).Pass?
    decreases |node.template.attributeMap.keys| - i
  {
    if i < |node.template.attributeMap.keys| {
      EntriesFromPassIff(node, i + 1, co);
    }
  }

  /** What a builder must meet for one template attribute `n`. */
  ghost predicate EntryAcceptable(node: BuilderNode, n: string, co: Coercions)
    requires TemplateWellFormed(node.template) && n in node.template.attributeMap.values
  {
    var def := node.template.attributeMap.values[n];
    var set_ := node.attributes.values;
    && (!def.nillable && n !in GroupNames(node.children) ==> n in set_ && IsDefined(set_[n]))
    && (n in set_ && IsDefined(set_[n]) ==> ValueCheck(def, set_[n], co).Pass?)
  }

  /** The conditions a builder must meet, stated attribute by attribute. */
  ghost predicate Acceptable(node: BuilderNode, co: Coercions)
    requires TemplateWellFormed(node.template)
  {
    var known := node.template.attributeMap.values;
    && (forall n :: n in node.attributes.values ==> n in known)
    && (forall n :: n in GroupNames(node.children) ==> n in known)
    && (forall n :: n in known ==> EntryAcceptable(node, n, co))
  }

  /** The per-attribute check passes exactly when the attribute's conditions hold. */
  lemma EntryCheckPassIff(node: BuilderNode, n: string, co: Coercions)
    requires TemplateWellFormed(node.template) && n in node.template.attributeMap.values
    ensures EntryCheck(node, n, co).Pass? <==> EntryAcceptable(node, n, co)
  {
  }

  /** The entry loop passes exactly when every template attribute is acceptable. */
  lemma EntriesPassIff(node: BuilderNode, co: Coercions)
    requires TemplateWellFormed(node.template)
    ensures EntriesFrom(node, 0, co).Pass? <==>
      forall n :: n in node.template.attributeMap.values ==> EntryAcceptable(node, n, co)
  {
    var known := node.template.attributeMap.values;
    var tkeys := node.template.attributeMap.keys;
    EntriesFromPassIff(node, 0, co);
    if EntriesFrom(node, 0, co).Pass? {
      forall n | n in known
        ensures EntryAcceptable(node, n, co)
      {
        var j :| 0 <= j < |tkeys| && tkeys[j] == n;
        EntryCheckPassIff(node, n, co);
      }
    } else {
      var j :| 0 <= j < |tkeys| && EntryCheck(node, tkeys[j], co).Fail?;
      EntryCheckPassIff(node, tkeys[j], co);
    }
  }

  /**
   * buildInternal's checks pass exactly when every set or child attribute is in the
   * template, every required attribute that holds no children has a defined value, and
   * every defined value validates against its attribute.
   */
  lemma CheckNodePassIff(node: BuilderNode, co: Coercions)
    requires TemplateWellFormed(node.template) && node.attributes.Valid()
    ensures CheckNode(node, co).Pass? <==> Acceptable(node, co)
  {
    var known := node.template.attributeMap.values;
    FirstUnknownSpec(node.attributes.keys, known, 0);
    FirstUnknownSpec(GroupNames(node.children), known, 0);
    EntriesPassIff(node, co);
  }

  /**
   * A required attribute that holds no children under this builder and has no value
   * stops the build: this is how a Domain with no servers, or a Server with no
   * deployed objects, fails.
   */
  lemma MissingRequiredFails(node: BuilderNode, co: Coercions, n: string)
    requires TemplateWellFormed(node.template) && node.attributes.Valid()
    requires n in node.template.attributeMap.values && !node.template.attributeMap.values[n].nillable
    requires n !in GroupNames(node.children) && n !in node.attributes.values
    ensures CheckNode(node, co).Fail?
  {
    CheckNodePassIff(node, co);
    assert !EntryAcceptable(node, n, co);
  }

  // ---------------------------------------------------------------- the builders

  /** Child `c` is linked under attribute `attribute` of builder `i`. */
  ghost predicate ChildLinked(nodes: seq<BuilderNode>, i: nat, attribute: string, c: nat)
    requires i < |nodes|
  {
    && i < c < |nodes|
    && nodes[c].parent == Some(i)
    && AttributeForChildType(nodes[i].template, nodes[c].template.kind) == Ok(attribute)
  }

  /**
   * What createChildBuilder leaves behind for builder `i`: its parent was made before it
   * and has an attribute for its kind; each child group is named after the attribute
   * the template has for its members' kind, is non-empty, and holds builders made later
   * that name `i` as their parent.
   */
  ghost predicate NodeLinked(nodes: seq<BuilderNode>, i: nat)
    requires i < |nodes|
  {
    var n := nodes[i];
    && n.attributes.Valid()
    && TemplateWellFormed(n.template)
    && |n.url| > 0
    && NoDuplicates(GroupNames(n.children))
    && (n.parent.Some? ==>
          (n.parent.value < i && AttributeForChildType(nodes[n.parent.value].template, n.template.kind).Ok?))
    && (forall g :: 0 <= g < |n.children| ==> |n.children[g].members| > 0)
    && (forall g, m :: 0 <= g < |n.children| && 0 <= m < |n.children[g].members| ==>
          ChildLinked(nodes, i, n.children[g].attribute, n.children[g].members[m]))
  }

  ghost predicate WellLinked(nodes: seq<BuilderNode>) {
    forall i :: 0 <= i < |nodes| ==> NodeLinked(nodes, i)
  }

  /** The setAttribute calls of setDefaultAttributeValues, applied in order. */
  function PutAll(m: OrderedMap<string, ModelNode>, ds: seq<(string, ModelNode)>): OrderedMap<string, ModelNode>
    decreases |ds|
  {
    if ds == [] then m else PutAll(m.Put(ds[0].0, ds[0].1), ds[1..])
  }

  /** Putting the defaults keeps the map well formed. */
  lemma {:induction false} PutAllValid(m: OrderedMap<string, ModelNode>, ds: seq<(string, ModelNode)>)
    requires m.Valid()
    ensures PutAll(m, ds).Valid()
    decreases |ds|
  {
    if ds != [] {
      PutProperties(m, ds[0].0, ds[0].1);
      PutAllValid(m.Put(ds[0].0, ds[0].1), ds[1..]);
    }
  }

  /** Putting the defaults adds exactly their names to the keys. */
  lemma {:induction false} PutAllKeys(m: OrderedMap<string, ModelNode>, ds: seq<(string, ModelNode)>)
    ensures PutAll(m, ds).values.Keys == m.values.Keys + DefaultNames(ds)
    decreases |ds|
  {
    if ds != [] {
      PutAllKeys(m.Put(ds[0].0, ds[0].1), ds[1..]);
      assert ds == [ds[0]] + ds[1..];
      DefaultNamesAppend([ds[0]], ds[1..]);
    }
  }

  /**
   * new Builder(urlUtil, template, parent, name): the URL under the parent's URL, or the
   * root when there is no parent, then the kind's defaults; no children yet.
   */
  function FreshNode(t: ResourceTemplate, parent: Option<nat>, root: string, parentUrl: Option<string>, name: string, env: Environment): Result<BuilderNode, Error>
  {
    match Defaults(t.kind, name, env)
    case Err(e) => Err(e)
    case Ok(ds) => Ok(BuilderNode(t, parent, name, InstanceUrl(root, parentUrl, t.kind, name), PutAll(EmptyMap(), ds), []))
  }

  /** Creating a builder fails only for a JVM on a host without a name, with UnknownHost. */
  lemma FreshNodeFails(t: ResourceTemplate, parent: Option<nat>, base: string, parentUrl: Option<string>, name: string, env: Environment)
    ensures FreshNode(t, parent, base, parentUrl, name, env).Err? <==> t.kind == JvmClass && env.hostName.None?
    ensures FreshNode(t, parent, base, parentUrl, name, env).Err? ==> FreshNode(t, parent, base, parentUrl, name, env).error == UnknownHost
  {
    DefaultsFailOnlyForJvm(t.kind, name, env);
  }

  /**
   * createRootBuilder does not consult the parent set: a Jvm template, which does not
   * allow a null parent, still yields a parentless builder whenever the host has a name.
   */
  lemma JvmRootBuilderAccepted(t: ResourceTemplate, root: string, name: string, env: Environment)
    requires t.kind == JvmClass && env.hostName.Some?
    ensures !AllowsNullParent(t.kind)
    ensures FreshNode(t, None, root, None, name, env).Ok? && FreshNode(t, None, root, None, name, env).value.parent.None?
  {
    FreshNodeFails(t, None, root, None, name, env);
    RootKinds();
  }

  /**
   * A new builder already holds a value for every attribute its kind requires that holds
   * no children, so only a child attribute can be left unset at build.
   */
  lemma FreshNodeCoversRequired(t: ResourceTemplate, parent: Option<nat>, base: string, parentUrl: Option<string>, name: string, env: Environment)
    requires FreshNode(t, parent, base, parentUrl, name, env).Ok?
    ensures RequiredNames(Schema(t.kind)) <= FreshNode(t, parent, base, parentUrl, name, env).value.attributes.values.Keys
  {
    var ds := Defaults(t.kind, name, env).value;
    PutAllKeys(EmptyMap(), ds);
    DefaultsCoverRequired(t.kind, name, env);
  }

  /**
   * A Server builder whose only children are JVMs cannot be built: `deployedObjects` is
   * required, has no default, and no child backs it.
   */
  lemma ServerWithOnlyJvmsFails(t: ResourceTemplate, root: string, parent: Option<nat>, base: string, parentUrl: Option<string>, name: string,
                                env: Environment, groups: seq<Group<nat>>, co: Coercions)
    requires Compiled(t, root, ServerClass)
    requires forall g :: g in groups ==> g.attribute == "javaVMs"
    ensures TemplateWellFormed(t) && FreshNode(t, parent, base, parentUrl, name, env).Ok?
    ensures FreshNode(t, parent, base, parentUrl, name, env).value.attributes.Valid()
    ensures CheckNode(FreshNode(t, parent, base, parentUrl, name, env).value.(children := groups), co).Fail?
  {
    FreshServerNode(t, root, parent, base, parentUrl, name, env);
    GroupsWithoutFail(FreshNode(t, parent, base, parentUrl, name, env).value, groups, co, "deployedObjects");
  }

  /** Replacing the children by groups none of which is named `n` leaves `n` unbacked, so the check fails. */
  lemma GroupsWithoutFail(node: BuilderNode, groups: seq<Group<nat>>, co: Coercions, n: string)
    requires TemplateWellFormed(node.template) && node.attributes.Valid()
    requires n in node.template.attributeMap.values && !node.template.attributeMap.values[n].nillable
    requires n !in node.attributes.values && forall g :: g in groups ==> g.attribute != n
    ensures CheckNode(node.(children := groups), co).Fail?
  {
    assert n !in GroupNames(groups);
    MissingRequiredFails(node.(children := groups), co, n);
  }

  /** A new Server builder lacks `deployedObjects`, which its template requires. */
  lemma FreshServerNode(t: ResourceTemplate, root: string, parent: Option<nat>, base: string, parentUrl: Option<string>, name: string, env: Environment)
    requires Compiled(t, root, ServerClass)
    ensures TemplateWellFormed(t) && FreshNode(t, parent, base, parentUrl, name, env).Ok?
    ensures "deployedObjects" in t.attributeMap.values && !t.attributeMap.values["deployedObjects"].nillable
    ensures var node := FreshNode(t, parent, base, parentUrl, name, env).value;
      node.template == t && node.attributes.Valid() && "deployedObjects" !in node.attributes.values
  {
    FreshNodeFails(t, parent, base, parentUrl, name, env);
    CompiledWellFormed(t, root, ServerClass);
    ServerHoldsDeployedObjects(t, root);
    var ds := Defaults(ServerClass, name, env).value;
    PutAllKeys(EmptyMap(), ds);
    PutAllValid(EmptyMap(), ds);
    ServerDefaultsSkipDeployedObjects(name, env);
  }

  lemma ServerHoldsDeployedObjects(t: ResourceTemplate, root: string)
    requires Compiled(t, root, ServerClass)
    ensures "deployedObjects" in t.attributeMap.values && !t.attributeMap.values["deployedObjects"].nillable
  {
    var last, k := ServerLastAttribute();
    LastOwnAttributeHeld(t, root, ServerClass);
    DomainAndServerSchemas();
    assert last.name == Names(OwnSchema(ServerClass))[3];
  }

  lemma ServerDefaultsSkipDeployedObjects(name: string, env: Environment)
    ensures Defaults(ServerClass, name, env).Ok?
    ensures "deployedObjects" !in DefaultNames(Defaults(ServerClass, name, env).value)
  {
    var ds := Defaults(ServerClass, name, env).value;
    ShownDefaults(name, env);
    assert ds == BaseDefaults(name) + ds[4..];
    forall d | d in ds ensures d.0 != "deployedObjects" {
      assert d in BaseDefaults(name) || d in ds[4..];
    }
  }

  /** Appending a builder with no children, whose parent is earlier and has an attribute for it, keeps the links. */
  lemma AppendKeepsLinked(nodes: seq<BuilderNode>, n: BuilderNode)
    requires WellLinked(nodes)
    requires n.attributes.Valid() && TemplateWellFormed(n.template) && |n.url| > 0 && n.children == []
    requires n.parent.Some? ==>
      (n.parent.value < |nodes| && AttributeForChildType(nodes[n.parent.value].template, n.template.kind).Ok?)
    ensures WellLinked(nodes + [n])
  {
    var nodes' := nodes + [n];
    forall i | 0 <= i < |nodes'|
      ensures NodeLinked(nodes', i)
    {
      if i < |nodes| {
        assert NodeLinked(nodes, i);
        var c := nodes[i].children;
        forall g, m | 0 <= g < |c| && 0 <= m < |c[g].members|
          ensures ChildLinked(nodes', i, c[g].attribute, c[g].members[m])
        {
          assert ChildLinked(nodes, i, c[g].attribute, c[g].members[m]);
        }
      }
    }
  }

  /** Replacing a builder's attributes by a well-formed map keeps the links. */
  lemma SetKeepsLinked(nodes: seq<BuilderNode>, b: nat, attrs: OrderedMap<string, ModelNode>)
    requires WellLinked(nodes) && b < |nodes| && attrs.Valid()
    ensures WellLinked(nodes[b := nodes[b].(attributes := attrs)])
  {
    var nodes' := nodes[b := nodes[b].(attributes := attrs)];
    forall i | 0 <= i < |nodes'|
      ensures NodeLinked(nodes', i)
    {
      assert NodeLinked(nodes, i);
      var c := nodes[i].children;
      forall g, m | 0 <= g < |c| && 0 <= m < |c[g].members|
        ensures ChildLinked(nodes', i, c[g].attribute, c[g].members[m])
      {
        assert ChildLinked(nodes, i, c[g].attribute, c[g].members[m]);
      }
    }
  }

  /** Member `m` of group `g` after adding `x` under `key`: one that was there, or `x` under `key`. */
  lemma AddToGroupMember<T>(gs: seq<Group<T>>, key: string, x: T, g: nat, m: nat)
    requires NoDuplicates(GroupNames(gs))
    requires g < |AddToGroup(gs, key, x)| && m < |AddToGroup(gs, key, x)[g].members|
    ensures var gs' := AddToGroup(gs, key, x);
      || (g < |gs| && gs'[g].attribute == gs[g].attribute && m < |gs[g].members| && gs'[g].members[m] == gs[g].members[m])
      || (gs'[g].attribute == key && gs'[g].members[m] == x)
  {
    if key in GroupNames(gs) {
      var k :| 0 <= k < |gs| && GroupNames(gs)[k] == key;
      forall i | 0 <= i < k
        ensures gs[i].attribute != key
      {
        assert GroupNames(gs)[i] != GroupNames(gs)[k];
      }
      AddToGroupAt(gs, key, x, k);
    } else {
      AddToGroupNew(gs, key, x);
    }
  }

  /** Adding keeps every group non-empty. */
  lemma {:induction false} AddToGroupNonEmpty<T>(gs: seq<Group<T>>, key: string, x: T)
    requires forall g :: 0 <= g < |gs| ==> |gs[g].members| > 0
    ensures forall g :: 0 <= g < |AddToGroup(gs, key, x)| ==> |AddToGroup(gs, key, x)[g].members| > 0
  {
    if gs != [] && gs[0].attribute != key {
      AddToGroupNonEmpty(gs[1..], key, x);
    }
  }

  /** A child link survives any change that keeps the templates and the child's parent. */
  lemma ChildLinkedTransfer(nodes1: seq<BuilderNode>, nodes2: seq<BuilderNode>, i: nat, attribute: string, c: nat)
    requires i < |nodes1| && ChildLinked(nodes1, i, attribute, c) && |nodes2| == |nodes1|
    requires nodes2[i].template == nodes1[i].template
    requires nodes2[c].parent == nodes1[c].parent && nodes2[c].template == nodes1[c].template
    ensures ChildLinked(nodes2, i, attribute, c)
  {
  }

  /** The parent's own links after its new child is added under `key`. */
  lemma ParentLinkedAfterAdd(nodes1: seq<BuilderNode>, b: nat, key: string, nodes2: seq<BuilderNode>)
    requires b < |nodes1| - 1 && NodeLinked(nodes1, b)
    requires nodes1[|nodes1| - 1].parent == Some(b)
    requires AttributeForChildType(nodes1[b].template, nodes1[|nodes1| - 1].template.kind) == Ok(key)
    requires nodes2 == nodes1[b := nodes1[b].(children := AddToGroup(nodes1[b].children, key, |nodes1| - 1))]
    ensures NodeLinked(nodes2, b)
  {
    var idx := |nodes1| - 1;
    var gs := nodes1[b].children;
    var c := nodes2[b].children;
    AddToGroupNames(gs, key, idx);
    AddToGroupNonEmpty(gs, key, idx);
    forall g, m | 0 <= g < |c| && 0 <= m < |c[g].members|
      ensures ChildLinked(nodes2, b, c[g].attribute, c[g].members[m])
    {
      MemberLinkedAfterAdd(nodes1, b, key, nodes2, g, m);
    }
  }

  lemma MemberLinkedAfterAdd(nodes1: seq<BuilderNode>, b: nat, key: string, nodes2: seq<BuilderNode>, g: nat, m: nat)
    requires b < |nodes1| - 1 && NoDuplicates(GroupNames(nodes1[b].children))
    requires forall g, m :: 0 <= g < |nodes1[b].children| && 0 <= m < |nodes1[b].children[g].members| ==>
      ChildLinked(nodes1, b, nodes1[b].children[g].attribute, nodes1[b].children[g].members[m])
    requires nodes1[|nodes1| - 1].parent == Some(b)
    requires AttributeForChildType(nodes1[b].template, nodes1[|nodes1| - 1].template.kind) == Ok(key)
    requires nodes2 == nodes1[b := nodes1[b].(children := AddToGroup(nodes1[b].children, key, |nodes1| - 1))]
    requires g < |nodes2[b].children| && m < |nodes2[b].children[g].members|
    ensures ChildLinked(nodes2, b, nodes2[b].children[g].attribute, nodes2[b].children[g].members[m])
  {
    var idx := |nodes1| - 1;
    var gs := nodes1[b].children;
    var c := nodes2[b].children;
    AddToGroupMember(gs, key, idx, g, m);
    var x := c[g].members[m];
    if g < |gs| && c[g].attribute == gs[g].attribute && m < |gs[g].members| && x == gs[g].members[m] {
      assert ChildLinked(nodes1, b, gs[g].attribute, gs[g].members[m]);
      ChildLinkedTransfer(nodes1, nodes2, b, c[g].attribute, x);
    } else {
      ChildLinkedTransfer(nodes1, nodes2, b, key, idx);
    }
  }

  /**
   * Appending a child builder of `b` and adding it under `key`, the attribute `b`'s
   * template has for its kind, keeps the links.
   */
  lemma AddChildKeepsLinked(nodes: seq<BuilderNode>, b: nat, key: string, n: BuilderNode)
    requires WellLinked(nodes) && b < |nodes|
    requires n.attributes.Valid() && TemplateWellFormed(n.template) && |n.url| > 0 && n.children == []
    requires n.parent == Some(b) && AttributeForChildType(nodes[b].template, n.template.kind) == Ok(key)
    ensures var idx := |nodes|;
      WellLinked((nodes + [n])[b := nodes[b].(children := AddToGroup(nodes[b].children, key, idx))])
  {
    var idx := |nodes|;
    var nodes1 := nodes + [n];
    AppendKeepsLinked(nodes, n);
    var nodes2 := nodes1[b := nodes[b].(children := AddToGroup(nodes[b].children, key, idx))];
    forall i | 0 <= i < |nodes2|
      ensures NodeLinked(nodes2, i)
    {
      assert NodeLinked(nodes1, i);
      if i == b {
        ParentLinkedAfterAdd(nodes1, b, key, nodes2);
      } else {
        var c := nodes2[i].children;
        forall g, m | 0 <= g < |c| && 0 <= m < |c[g].members|
          ensures ChildLinked(nodes2, i, c[g].attribute, c[g].members[m])
        {
          assert ChildLinked(nodes1, i, c[g].attribute, c[g].members[m]);
          ChildLinkedTransfer(nodes1, nodes2, i, c[g].attribute, c[g].members[m]);
        }
      }
    }
  }

  /**
   * ResourceInstance.Builder objects. Each builder is named by its position in `nodes`,
   * in creation order; a builder's parent and its children are positions too.
   */
  class BuilderForest {
    const root: string
    var nodes: seq<BuilderNode>

    ghost predicate Valid()
      reads this
    {
      |root| > 0 && WellLinked(nodes)
    }

    /** A forest whose root builders' URLs sit under `root`. */
    constructor(root: string)
      requires |root| > 0
      ensures Valid() && this.root == root && nodes == []
    {
      this.root := root;
      nodes := [];
    }

    /** The Builder constructor: createInstanceUrl, then setDefaultAttributeValues. */
    method NewBuilder(t: ResourceTemplate, parent: Option<nat>, name: string, env: Environment) returns (r: Result<BuilderNode, Error>)
      requires Valid() && (parent.Some? ==> parent.value < |nodes|)
      ensures r == FreshNode(t, parent, root, if parent.Some? then Some(nodes[parent.value].url) else None, name, env)
    {
      var base := if parent.Some? then nodes[parent.value].url else root;
      assert parent.Some? ==> NodeLinked(nodes, parent.value);
      var url := AppendUrl(base, [PathSegment(t.kind), name]);
      var ds := Defaults(t.kind, name, env);
      if ds.Err? {
        return Err(ds.error);
      }
      var attrs := EmptyMap();
      var i := 0;
      while i < |ds.value|
        invariant 0 <= i <= |ds.value|
        invariant PutAll(EmptyMap(), ds.value) == PutAll(attrs, ds.value[i..])
      {
        assert ds.value[i..][1..] == ds.value[i + 1..];
        attrs := attrs.Put(ds.value[i].0, ds.value[i].1);
        i := i + 1;
      }
      r := Ok(BuilderNode(t, parent, name, url, attrs, []));
    }

    /** createRootBuilder: a builder with no parent, its URL under the root. */
    method CreateRootBuilder(t: ResourceTemplate, name: string, env: Environment) returns (r: Result<nat, Error>)
      requires Valid() && TemplateWellFormed(t)
      modifies this
      ensures Valid()
      ensures r.Ok? <==> FreshNode(t, None, root, None, name, env).Ok?
      ensures r.Ok? ==> r.value == |old(nodes)| && nodes == old(nodes) + [FreshNode(t, None, root, None, name, env).value]
      ensures r.Err? ==> nodes == old(nodes) && r.error == UnknownHost
    {
      var n := NewBuilder(t, None, name, env);
      FreshNodeFails(t, None, root, None, name, env);
      if n.Err? {
        return Err(n.error);
      }
      EmptyMapValid<string, ModelNode>();
      PutAllValid(EmptyMap(), Defaults(t.kind, name, env).value);
      AppendKeepsLinked(nodes, n.value);
      r := Ok(|nodes|);
      nodes := nodes + [n.value];
    }

    /** setAttribute: put the value, replacing any earlier one in place. */
    method SetAttribute(b: nat, name: string, value: ModelNode)
      requires Valid() && b < |nodes|
      modifies this
      ensures Valid()
      ensures nodes == old(nodes)[b := old(nodes)[b].(attributes := old(nodes)[b].attributes.Put(name, value))]
    {
      assert NodeLinked(nodes, b);
      PutProperties(nodes[b].attributes, name, value);
      SetKeepsLinked(nodes, b, nodes[b].attributes.Put(name, value));
      nodes := nodes[b := nodes[b].(attributes := nodes[b].attributes.Put(name, value))];
    }

    /**
     * createChildBuilder: BadChildType unless `b`'s template is one of the child's
     * parents; then the child builder (whose defaults may fail); then the attribute of
     * `b`'s template for the child's kind, under which the child is added.
     */
    method CreateChildBuilder(b: nat, t: ResourceTemplate, name: string, env: Environment) returns (r: Result<nat, Error>)
      requires Valid() && b < |nodes| && TemplateWellFormed(t)
      modifies this
      ensures Valid()
      ensures var made := FreshNode(t, Some(b), root, Some(old(nodes)[b].url), name, env);
        var key := AttributeForChildType(old(nodes)[b].template, t.kind);
        && (r.Ok? <==> IsValidParent(t, old(nodes)[b].template) && made.Ok? && key.Ok?)
        && (r.Err? ==>
              (nodes == old(nodes) &&
               r.error == (if !IsValidParent(t, old(nodes)[b].template) then BadChildType
                           else if made.Err? then made.error else key.error)))
        && (r.Ok? ==>
              (r.value == |old(nodes)| &&
               nodes == (old(nodes) + [made.value])[b := old(nodes)[b].(children := AddToGroup(old(nodes)[b].children, key.value, r.value))]))
    {
      if !IsValidParent(t, nodes[b].template) {
        return Err(BadChildType);
      }
      var n := NewBuilder(t, Some(b), name, env);
      if n.Err? {
        return Err(n.error);
      }
      var key := GetAttributeForChildType(nodes[b].template, t.kind);
      if key.Err? {
        return Err(key.error);
      }
      assert NodeLinked(nodes, b);
      EmptyMapValid<string, ModelNode>();
      PutAllValid(EmptyMap(), Defaults(t.kind, name, env).value);
      AddChildKeepsLinked(nodes, b, key.value, n.value);
      var idx := |nodes|;
      nodes := (nodes + [n.value])[b := nodes[b].(children := AddToGroup(nodes[b].children, key.value, idx))];
      r := Ok(idx);
    }

    /**
     * buildInternal: the checks, then the link key the parent's addChild uses, then the
     * child builders group by group, each adding its instance to this one.
     */
    method BuildInternal(b: nat, co: Coercions) returns (r: Result<Built, Error>)
      requires Valid() && b < |nodes|
      ensures r == BuiltTree(nodes, b, co)
      decreases |nodes| - b, 2
    {
      var node := nodes[b];
      assert NodeLinked(nodes, b);
      var check := CheckBuilder(node, co);
      if check.Fail? {
        return Err(check.error);
      }
      var link: Option<string> := None;
      if node.parent.Some? {
        var key := GetAttributeForChildType(nodes[node.parent.value].template, node.template.kind);
        // the parent found this attribute when it created this builder
        assert key.Ok?;
        link := Some(key.value);
      }
      var start := Instance(node.url, node.template, ParentUrlOf(nodes, b), node.name, node.attributes, []);
      var inst := BuildChildren(b, start, co);
      if inst.Err? {
        return Err(inst.error);
      }
      r := Ok(Built(link, inst.value));
    }

    /** The loop over the child groups of builder `b`. */
    method BuildChildren(b: nat, start: Instance, co: Coercions) returns (r: Result<Instance, Error>)
      requires Valid() && b < |nodes|
      ensures r == BuildGroups(nodes, b, 0, start, co)
      decreases |nodes| - b, 1
    {
      var groups := nodes[b].children;
      var inst := start;
      var j := 0;
      while j < |groups|
        invariant 0 <= j <= |groups|
        invariant BuildGroups(nodes, b, 0, start, co) == BuildGroups(nodes, b, j, inst, co)
      {
        var next := BuildGroupMembers(b, j, inst, co);
        if next.Err? {
          return Err(next.error);
        }
        inst := next.value;
        j := j + 1;
      }
      r := Ok(inst);
    }

    /** The loop over the members of group `j` of builder `b`. */
    method BuildGroupMembers(b: nat, j: nat, start: Instance, co: Coercions) returns (r: Result<Instance, Error>)
      requires Valid() && b < |nodes| && j < |nodes[b].children|
      ensures r == BuildMembers(nodes, b, j, 0, start, co)
      decreases |nodes| - b, 0
    {
      var members := nodes[b].children[j].members;
      assert NodeLinked(nodes, b);
      var inst := start;
      var m := 0;
      while m < |members|
        invariant 0 <= m <= |members|
        invariant BuildMembers(nodes, b, j, 0, start, co) == BuildMembers(nodes, b, j, m, inst, co)
      {
        assert ChildLinked(nodes, b, nodes[b].children[j].attribute, members[m]);
        var child := BuildInternal(members[m], co);
        assert child == MemberBuilt(nodes, b, j, m, co);
        if child.Err? {
          return Err(child.error);
        }
        inst := inst.(children := AddToGroup(inst.children, child.value.link.GetOr(""), child.value.instance));
        m := m + 1;
      }
      r := Ok(inst);
    }

    /** build: only on a builder without a parent. */
    method Build(b: nat, co: Coercions) returns (r: Result<Instance, Error>)
      requires Valid() && b < |nodes|
      ensures r.Ok? <==> nodes[b].parent.None? && BuiltTree(nodes, b, co).Ok?
      ensures r.Ok? ==> r.value == BuiltTree(nodes, b, co).value.instance
      ensures r.Err? ==> r.error == (if nodes[b].parent.Some? then NotRoot else BuiltTree(nodes, b, co).error)
    {
      if nodes[b].parent.Some? {
        return Err(NotRoot);
      }
      var built := BuildInternal(b, co);
      if built.Err? {
        return Err(built.error);
      }
      r := Ok(built.value.instance);
    }
  }

  // ---------------------------------------------------------------- building

  /**
   * A ResourceInstance: its URL, template, parent (by URL), name, the attributes it was
   * built with, and its children grouped under the attribute holding them.
   */
  datatype Instance = Instance(
    url: string,
    template: ResourceTemplate,
    parent: Option<string>,
    name: string,
    attributes: OrderedMap<string, ModelNode>,
    children: seq<Group<Instance>>)

  /** A built instance and the attribute its parent's addChild filed it under (none for a root). */
  datatype Built = Built(link: Option<string>, instance: Instance)

  /** The URL of builder `b`'s parent, if it has one. */
  function ParentUrlOf(nodes: seq<BuilderNode>, b: nat): (r: Option<string>)
    requires WellLinked(nodes) && b < |nodes|
    ensures r.Some? <==> nodes[b].parent.Some?
    ensures r.Some? ==> nodes[b].parent.value < b && r.value == nodes[nodes[b].parent.value].url
  {
    assert NodeLinked(nodes, b);
    match nodes[b].parent
    case None => None
    case Some(p) => Some(nodes[p].url)
  }

  /** addChild on the parent: the parent template's attribute for this builder's kind. */
  function LinkKey(nodes: seq<BuilderNode>, b: nat): Result<Option<string>, Error>
    requires WellLinked(nodes) && b < |nodes|
  {
    assert NodeLinked(nodes, b);
    match nodes[b].parent
    case None => Ok(None)
    case Some(p) =>
      match AttributeForChildType(nodes[p].template, nodes[b].template.kind)
      case Err(e) => Err(e)
      case Ok(k) => Ok(Some(k))
  }

  /** What buildInternal on builder `b` returns, or the exception it throws. */
  function BuiltTree(nodes: seq<BuilderNode>, b: nat, co: Coercions): Result<Built, Error>
    requires WellLinked(nodes) && b < |nodes|
    decreases |nodes| - b, 2, 0, 0
  {
    var node := nodes[b];
    assert NodeLinked(nodes, b);
    match CheckNode(node, co)
    case Fail(e) => Err(e)
    case Pass =>
      match LinkKey(nodes, b)
      case Err(e) => Err(e)
      case Ok(link) =>
        match BuildGroups(nodes, b, 0, Instance(node.url, node.template, ParentUrlOf(nodes, b), node.name, node.attributes, []), co)
        case Err(e) => Err(e)
        case Ok(inst) => Ok(Built(link, inst))
  }

  /** The child groups of builder `b` from group `j` on, built into `inst`. */
  function BuildGroups(nodes: seq<BuilderNode>, b: nat, j: nat, inst: Instance, co: Coercions): Result<Instance, Error>
    requires WellLinked(nodes) && b < |nodes|
    decreases |nodes| - b, 1, |nodes[b].children| - j, 0
  {
    if j >= |nodes[b].children| then Ok(inst)
    else match BuildMembers(nodes, b, j, 0, inst, co)
      case Err(e) => Err(e)
      case Ok(inst') => BuildGroups(nodes, b, j + 1, inst', co)
  }

  /** The members of group `j` of builder `b` from `m` on, each built and added to `inst`. */
  function BuildMembers(nodes: seq<BuilderNode>, b: nat, j: nat, m: nat, inst: Instance, co: Coercions): Result<Instance, Error>
    requires WellLinked(nodes) && b < |nodes| && j < |nodes[b].children|
    decreases |nodes| - b, 0, |nodes[b].children[j].members| - m, 1
  {
    if m >= |nodes[b].children[j].members| then Ok(inst)
    else match MemberBuilt(nodes, b, j, m, co)
      case Err(e) => Err(e)
      case Ok(bt) => BuildMembers(nodes, b, j, m + 1, inst.(children := AddToGroup(inst.children, bt.link.GetOr(""), bt.instance)), co)
  }

  /** buildInternal on member `m` of group `j` of builder `b`. */
  function MemberBuilt(nodes: seq<BuilderNode>, b: nat, j: nat, m: nat, co: Coercions): Result<Built, Error>
    requires WellLinked(nodes) && b < |nodes| && j < |nodes[b].children| && m < |nodes[b].children[j].members|
    decreases |nodes| - b, 0, |nodes[b].children[j].members| - m, 0
  {
    assert NodeLinked(nodes, b) && ChildLinked(nodes, b, nodes[b].children[j].attribute, nodes[b].children[j].members[m]);
    BuiltTree(nodes, nodes[b].children[j].members[m], co)
  }

  /** Member `k` of group `g` of builder `b`. */
  function ChildAt(nodes: seq<BuilderNode>, b: nat, g: nat, k: nat): (c: nat)
    requires WellLinked(nodes) && b < |nodes| && g < |nodes[b].children| && k < |nodes[b].children[g].members|
    ensures c == nodes[b].children[g].members[k] && ChildLinked(nodes, b, nodes[b].children[g].attribute, c)
  {
    assert NodeLinked(nodes, b);
    nodes[b].children[g].members[k]
  }

  /** A built child carries the attribute it is linked under in its parent. */
  lemma ChildLink(nodes: seq<BuilderNode>, p: nat, attribute: string, c: nat, co: Coercions)
    requires WellLinked(nodes) && p < |nodes| && ChildLinked(nodes, p, attribute, c)
    requires BuiltTree(nodes, c, co).Ok?
    ensures BuiltTree(nodes, c, co).value.link == Some(attribute)
  {
  }

  /**
   * `out` has the shape of groups 0 to `j` - 1 of `cs` followed, when `m` > 0, by the
   * first `m` members of group `j`: the same attribute names and group sizes.
   */
  ghost predicate Shaped<T>(cs: seq<Group<nat>>, j: nat, m: nat, out: seq<Group<T>>)
    requires j <= |cs| && (m > 0 ==> j < |cs| && m <= |cs[j].members|)
  {
    && |out| == (if m > 0 then j + 1 else j)
    && (forall g :: 0 <= g < |out| ==> out[g].attribute == cs[g].attribute)
    && (forall g :: 0 <= g < |out| ==> |out[g].members| == (if g < j then |cs[g].members| else m))
  }

  /** The first member of group `j` opens a new group after the first `j`. */
  lemma ShapedOpen<T>(cs: seq<Group<nat>>, j: nat, out: seq<Group<T>>, x: T)
    requires NoDuplicates(GroupNames(cs)) && j < |cs| && |cs[j].members| > 0 && Shaped(cs, j, 0, out)
    ensures AddToGroup(out, cs[j].attribute, x) == out + [Group(cs[j].attribute, [x])]
    ensures Shaped(cs, j, 1, out + [Group(cs[j].attribute, [x])])
  {
    forall g | 0 <= g < |out|
      ensures GroupNames(out)[g] != cs[j].attribute
    {
      assert GroupNames(cs)[g] != GroupNames(cs)[j];
    }
    AddToGroupNew(out, cs[j].attribute, x);
  }

  /** A later member of group `j` joins group `j`. */
  lemma ShapedExtend<T>(cs: seq<Group<nat>>, j: nat, m: nat, out: seq<Group<T>>, x: T)
    requires NoDuplicates(GroupNames(cs)) && j < |cs| && 0 < m < |cs[j].members| && Shaped(cs, j, m, out)
    ensures AddToGroup(out, cs[j].attribute, x) == out[j := out[j].(members := out[j].members + [x])]
    ensures Shaped(cs, j, m + 1, out[j := out[j].(members := out[j].members + [x])])
  {
    forall g | 0 <= g < j
      ensures out[g].attribute != cs[j].attribute
    {
      assert GroupNames(cs)[g] != GroupNames(cs)[j];
    }
    AddToGroupAt(out, cs[j].attribute, x, j);
  }

  /** Every member instance in `out` is the one built from the matching child builder. */
  ghost predicate BuiltAgree(nodes: seq<BuilderNode>, b: nat, out: seq<Group<Instance>>, co: Coercions)
    requires WellLinked(nodes) && b < |nodes|
  {
    var cs := nodes[b].children;
    forall g, k :: 0 <= g < |out| && g < |cs| && 0 <= k < |out[g].members| && k < |cs[g].members| ==>
      MemberBuilt(nodes, b, g, k, co) == Ok(Built(Some(cs[g].attribute), out[g].members[k]))
  }

  /** Agreement survives adding the instance built from member `m` of group `j` at that place. */
  lemma AgreeAdd(nodes: seq<BuilderNode>, b: nat, j: nat, m: nat, out: seq<Group<Instance>>, out': seq<Group<Instance>>, x: Instance, co: Coercions)
    requires WellLinked(nodes) && b < |nodes| && j < |nodes[b].children| && m < |nodes[b].children[j].members|
    requires BuiltAgree(nodes, b, out, co)
    requires MemberBuilt(nodes, b, j, m, co) == Ok(Built(Some(nodes[b].children[j].attribute), x))
    requires j < |out'| && |out'[j].members| == m + 1 && out'[j].members[m] == x
    requires forall g, k :: 0 <= g < |out'| && 0 <= k < |out'[g].members| && (g, k) != (j, m) ==>
      g < |out| && k < |out[g].members| && out'[g].members[k] == out[g].members[k]
    ensures BuiltAgree(nodes, b, out', co)
  {
  }

  /** One member of group `j` built and added keeps the shape and the agreement. */
  lemma MembersStep(nodes: seq<BuilderNode>, b: nat, j: nat, m: nat, inst: Instance, co: Coercions)
    requires WellLinked(nodes) && b < |nodes| && j < |nodes[b].children| && m < |nodes[b].children[j].members|
    requires Shaped(nodes[b].children, j, m, inst.children) && BuiltAgree(nodes, b, inst.children, co)
    requires BuildMembers(nodes, b, j, m, inst, co).Ok?
    ensures MemberBuilt(nodes, b, j, m, co).Ok?
    ensures var inst' := inst.(children := AddToGroup(inst.children, nodes[b].children[j].attribute, MemberBuilt(nodes, b, j, m, co).value.instance));
      && Shaped(nodes[b].children, j, m + 1, inst'.children)
      && BuiltAgree(nodes, b, inst'.children, co)
      && BuildMembers(nodes, b, j, m, inst, co) == BuildMembers(nodes, b, j, m + 1, inst', co)
  {
    var cs := nodes[b].children;
    assert NoDuplicates(GroupNames(cs)) by {
      assert NodeLinked(nodes, b);
    }
    var c := ChildAt(nodes, b, j, m);
    assert MemberBuilt(nodes, b, j, m, co) == BuiltTree(nodes, c, co);
    var bt := BuiltTree(nodes, c, co).value;
    ChildLink(nodes, b, cs[j].attribute, c, co);
    var out := inst.children;
    var out' := AddToGroup(out, cs[j].attribute, bt.instance);
    if m == 0 {
      ShapedOpen(cs, j, out, bt.instance);
    } else {
      ShapedExtend(cs, j, m, out, bt.instance);
    }
    AgreeAdd(nodes, b, j, m, out, out', bt.instance, co);
  }

  /** Building the members of group `j` from `m` on completes group `j` and leaves the rest of the instance alone. */
  lemma {:induction false} BuildMembersMirror(nodes: seq<BuilderNode>, b: nat, j: nat, m: nat, inst: Instance, co: Coercions)
    requires WellLinked(nodes) && b < |nodes| && j < |nodes[b].children| && m <= |nodes[b].children[j].members|
    requires Shaped(nodes[b].children, j, m, inst.children) && BuiltAgree(nodes, b, inst.children, co)
    requires BuildMembers(nodes, b, j, m, inst, co).Ok?
    ensures var r := BuildMembers(nodes, b, j, m, inst, co).value;
      && Shaped(nodes[b].children, j, |nodes[b].children[j].members|, r.children)
      && BuiltAgree(nodes, b, r.children, co)
      && r.(children := inst.children) == inst
    decreases |nodes[b].children[j].members| - m
  {
    if m < |nodes[b].children[j].members| {
      MembersStep(nodes, b, j, m, inst, co);
      var x := MemberBuilt(nodes, b, j, m, co).value.instance;
      BuildMembersMirror(nodes, b, j, m + 1, inst.(children := AddToGroup(inst.children, nodes[b].children[j].attribute, x)), co);
    }
  }

  /** Building the groups from `j` on completes every group and leaves the rest of the instance alone. */
  lemma {:induction false} BuildGroupsMirror(nodes: seq<BuilderNode>, b: nat, j: nat, inst: Instance, co: Coercions)
    requires WellLinked(nodes) && b < |nodes| && j <= |nodes[b].children|
    requires Shaped(nodes[b].children, j, 0, inst.children) && BuiltAgree(nodes, b, inst.children, co)
    requires BuildGroups(nodes, b, j, inst, co).Ok?
    ensures var r := BuildGroups(nodes, b, j, inst, co).value;
      && Shaped(nodes[b].children, |nodes[b].children|, 0, r.children)
      && BuiltAgree(nodes, b, r.children, co)
      && r.(children := inst.children) == inst
    decreases |nodes[b].children| - j
  {
    var cs := nodes[b].children;
    if j < |cs| {
      assert |cs[j].members| > 0 by {
        assert NodeLinked(nodes, b);
      }
      BuildMembersMirror(nodes, b, j, 0, inst, co);
      var inst' := BuildMembers(nodes, b, j, 0, inst, co).value;
      BuildGroupsMirror(nodes, b, j + 1, inst', co);
    }
  }

  /**
   * An instance built from builder `b` has the builder's URL, template, name and
   * attributes, its parent's URL, and a group per child group of the builder, in the
   * same order and under the same attribute, whose members are the instances built from
   * the builder's children, in the order they were created.
   */
  lemma BuiltTreeMirrors(nodes: seq<BuilderNode>, b: nat, co: Coercions)
    requires WellLinked(nodes) && b < |nodes| && BuiltTree(nodes, b, co).Ok?
    ensures var node := nodes[b];
      var inst := BuiltTree(nodes, b, co).value.instance;
      && inst.url == node.url && inst.template == node.template && inst.name == node.name
      && inst.attributes == node.attributes
      && inst.parent == ParentUrlOf(nodes, b)
      && GroupNames(inst.children) == GroupNames(node.children)
      && (forall g :: 0 <= g < |node.children| ==> |inst.children[g].members| == |node.children[g].members|)
      && (forall g, k :: 0 <= g < |node.children| && 0 <= k < |node.children[g].members| ==>
            MemberBuilt(nodes, b, g, k, co) == Ok(Built(Some(node.children[g].attribute), inst.children[g].members[k])))
  {
    var node := nodes[b];
    var start := Instance(node.url, node.template, ParentUrlOf(nodes, b), node.name, node.attributes, []);
    BuildGroupsMirror(nodes, b, 0, start, co);
  }

  /** When every member from `m` on builds, so does the rest of group `j`. */
  lemma {:induction false} BuildMembersOk(nodes: seq<BuilderNode>, b: nat, j: nat, m: nat, inst: Instance, co: Coercions)
    requires WellLinked(nodes) && b < |nodes| && j < |nodes[b].children|
    requires forall k :: m <= k < |nodes[b].children[j].members| ==> MemberBuilt(nodes, b, j, k, co).Ok?
    ensures BuildMembers(nodes, b, j, m, inst, co).Ok?
    decreases |nodes[b].children[j].members| - m
  {
    if m < |nodes[b].children[j].members| {
      var bt := MemberBuilt(nodes, b, j, m, co).value;
      BuildMembersOk(nodes, b, j, m + 1, inst.(children := AddToGroup(inst.children, bt.link.GetOr(""), bt.instance)), co);
    }
  }

  /** When every member of every group from `j` on builds, so do the groups. */
  lemma {:induction false} BuildGroupsOk(nodes: seq<BuilderNode>, b: nat, j: nat, inst: Instance, co: Coercions)
    requires WellLinked(nodes) && b < |nodes|
    requires forall g, k :: j <= g < |nodes[b].children| && 0 <= k < |nodes[b].children[g].members| ==>
      MemberBuilt(nodes, b, g, k, co).Ok?
    ensures BuildGroups(nodes, b, j, inst, co).Ok?
    decreases |nodes[b].children| - j
  {
    if j < |nodes[b].children| {
      BuildMembersOk(nodes, b, j, 0, inst, co);
      BuildGroupsOk(nodes, b, j + 1, BuildMembers(nodes, b, j, 0, inst, co).value, co);
    }
  }

  /** buildInternal succeeds on every child builder of `b`. */
  ghost predicate ChildrenBuild(nodes: seq<BuilderNode>, b: nat, co: Coercions)
    requires WellLinked(nodes) && b < |nodes|
  {
    forall g, k :: 0 <= g < |nodes[b].children| && 0 <= k < |nodes[b].children[g].members| ==>
      MemberBuilt(nodes, b, g, k, co).Ok?
  }

  /**
   * buildInternal on builder `b` succeeds exactly when `b` passes its own checks and
   * buildInternal succeeds on each of its children; when the checks fail, their
   * failure is the result.
   */
  lemma BuiltTreeOkIff(nodes: seq<BuilderNode>, b: nat, co: Coercions)
    requires WellLinked(nodes) && b < |nodes| && TemplateWellFormed(nodes[b].template)
    ensures BuiltTree(nodes, b, co).Ok? <==> CheckNode(nodes[b], co).Pass? && ChildrenBuild(nodes, b, co)
    ensures CheckNode(nodes[b], co).Fail? ==> BuiltTree(nodes, b, co) == Err(CheckNode(nodes[b], co).error)
  {
    assert NodeLinked(nodes, b);
    var node := nodes[b];
    if BuiltTree(nodes, b, co).Ok? {
      BuiltTreeMirrors(nodes, b, co);
    }
    if CheckNode(node, co).Pass? && ChildrenBuild(nodes, b, co) {
      var start := Instance(node.url, node.template, ParentUrlOf(nodes, b), node.name, node.attributes, []);
      BuildGroupsOk(nodes, b, 0, start, co);
      assert LinkKey(nodes, b).Ok?;
    }
  }

  // ---------------------------------------------------------------- serialization

  /** A link object: `rel` and `href`. */
  datatype Link = Link(rel: string, href: string)

  /** A field of an instance's JSON document: an attribute's value, or a list of links. */
  datatype Field = Value(node: ModelNode) | Links(links: seq<Link>)

  type Document = OrderedMap<string, Field>

  /** addLink twice: "self" to the instance, "help" to its template. */
  function LinksField(inst: Instance): Field {
    Links([Link("self", inst.url), Link("help", inst.template.url)])
  }

  /** The values of `keys`, each put in turn. */
  function PutValues(doc: Document, keys: seq<string>, values: map<string, ModelNode>): Document
    requires forall k :: k in keys ==> k in values
    decreases |keys|
  {
    if keys == [] then doc
    else PutValues(doc.Put(keys[0], Value(values[keys[0]])), keys[1..], values)
  }

  /** A link to each member: its template's URL as `rel`, its own URL as `href`. */
  function ChildLinks(members: seq<Instance>): (links: seq<Link>)
    ensures |links| == |members|
    ensures forall k :: 0 <= k < |members| ==> links[k] == Link(members[k].template.url, members[k].url)
  {
    seq(|members|, k requires 0 <= k < |members| => Link(members[k].template.url, members[k].url))
  }

  /** The child groups from `j` on, each put in turn as a fresh list of links. */
  function PutGroups(doc: Document, gs: seq<Group<Instance>>, j: nat): Document
    decreases |gs| - j
  {
    if j >= |gs| then doc
    else PutGroups(doc.Put(gs[j].attribute, Links(ChildLinks(gs[j].members))), gs, j + 1)
  }

  /** The document internalSerialize writes for `inst`. */
  function InstanceDocument(inst: Instance): Document
    requires inst.attributes.Valid()
  {
    PutGroups(PutValues(EmptyMap().Put("links", LinksField(inst)), inst.attributes.keys, inst.attributes.values), inst.children, 0)
  }

  /** Putting the values keeps the document well formed. */
  lemma {:induction false} PutValuesValid(doc: Document, keys: seq<string>, values: map<string, ModelNode>)
    requires doc.Valid() && forall k :: k in keys ==> k in values
    ensures PutValues(doc, keys, values).Valid()
    decreases |keys|
  {
    if keys != [] {
      PutProperties(doc, keys[0], Value(values[keys[0]]));
      PutValuesValid(doc.Put(keys[0], Value(values[keys[0]])), keys[1..], values);
    }
  }

  /** After putting the values of `keys`, each of them holds its value; every other key is as before. */
  lemma {:induction false} PutValuesGet(doc: Document, keys: seq<string>, values: map<string, ModelNode>, k: string)
    requires forall k :: k in keys ==> k in values
    ensures PutValues(doc, keys, values).Get(k) == if k in keys then Some(Value(values[k])) else doc.Get(k)
    decreases |keys|
  {
    if keys != [] {
      PutValuesGet(doc.Put(keys[0], Value(values[keys[0]])), keys[1..], values, k);
      assert keys == [keys[0]] + keys[1..];
    }
  }

  /** Putting the groups keeps the document well formed. */
  lemma {:induction false} PutGroupsValid(doc: Document, gs: seq<Group<Instance>>, j: nat)
    requires doc.Valid()
    ensures PutGroups(doc, gs, j).Valid()
    decreases |gs| - j
  {
    if j < |gs| {
      PutProperties(doc, gs[j].attribute, Links(ChildLinks(gs[j].members)));
      PutGroupsValid(doc.Put(gs[j].attribute, Links(ChildLinks(gs[j].members))), gs, j + 1);
    }
  }

  /** With distinct names, after putting the groups from `j` on, group `g`'s name holds the links to its members. */
  lemma {:induction false} PutGroupsAt(doc: Document, gs: seq<Group<Instance>>, j: nat, g: nat)
    requires NoDuplicates(GroupNames(gs)) && j <= g < |gs|
    ensures PutGroups(doc, gs, j).Get(gs[g].attribute) == Some(Links(ChildLinks(gs[g].members)))
    decreases |gs| - j
  {
    var doc' := doc.Put(gs[j].attribute, Links(ChildLinks(gs[j].members)));
    if g == j {
      PutGroupsOther(doc', gs, j + 1, gs[g].attribute);
    } else {
      PutGroupsAt(doc', gs, j + 1, g);
    }
  }

  /** A name no group from `j` on has is left as it was. */
  lemma {:induction false} PutGroupsOther(doc: Document, gs: seq<Group<Instance>>, j: nat, k: string)
    requires NoDuplicates(GroupNames(gs)) && j <= |gs|
    requires forall g :: j <= g < |gs| ==> gs[g].attribute != k
    ensures PutGroups(doc, gs, j).Get(k) == doc.Get(k)
    decreases |gs| - j
  {
    if j < |gs| {
      PutGroupsOther(doc.Put(gs[j].attribute, Links(ChildLinks(gs[j].members))), gs, j + 1, k);
    }
  }

  /**
   * The document of an instance with distinct group names: each child group's attribute
   * holds the links to its members, replacing any value of that attribute; every other
   * attribute holds its value; and "links" holds the self and help links unless an
   * attribute or a group of that name replaced them. Nothing else is in it.
   */
  lemma DocumentEntries(inst: Instance)
    requires inst.attributes.Valid() && NoDuplicates(GroupNames(inst.children))
    ensures var doc := InstanceDocument(inst);
      && doc.Valid()
      && (forall g :: 0 <= g < |inst.children| ==>
            doc.Get(inst.children[g].attribute) == Some(Links(ChildLinks(inst.children[g].members))))
      && (forall k :: k in inst.attributes.values && k !in GroupNames(inst.children) ==>
            doc.Get(k) == Some(Value(inst.attributes.values[k])))
      && ("links" !in inst.attributes.values && "links" !in GroupNames(inst.children) ==>
            doc.Get("links") == Some(LinksField(inst)))
      && (forall k :: k != "links" && k !in inst.attributes.values && k !in GroupNames(inst.children) ==>
            doc.Get(k).None?)
  {
    var attrs := inst.attributes;
    var gs := inst.children;
    var start := EmptyMap<string, Field>().Put("links", LinksField(inst));
    var mid := PutValues(start, attrs.keys, attrs.values);
    EmptyMapValid<string, Field>();
    PutProperties(EmptyMap<string, Field>(), "links", LinksField(inst));
    PutValuesValid(start, attrs.keys, attrs.values);
    PutGroupsValid(mid, gs, 0);
    forall g | 0 <= g < |gs|
      ensures PutGroups(mid, gs, 0).Get(gs[g].attribute) == Some(Links(ChildLinks(gs[g].members)))
    {
      PutGroupsAt(mid, gs, 0, g);
    }
    forall k | k !in GroupNames(gs)
      ensures PutGroups(mid, gs, 0).Get(k) == mid.Get(k)
      ensures mid.Get(k) == if k in attrs.keys then Some(Value(attrs.values[k])) else start.Get(k)
    {
      forall g | 0 <= g < |gs|
        ensures gs[g].attribute != k
      {
        assert GroupNames(gs)[g] == gs[g].attribute;
      }
      PutGroupsOther(mid, gs, 0, k);
      PutValuesGet(start, attrs.keys, attrs.values, k);
    }
  }

  /** The loop that fills a child group's list with a link per member. */
  method LinkList(members: seq<Instance>) returns (list: seq<Link>)
    ensures list == ChildLinks(members)
  {
    list := [];
    var k := 0;
    while k < |members|
      invariant 0 <= k <= |members| && |list| == k
      invariant forall i :: 0 <= i < k ==> list[i] == Link(members[i].template.url, members[i].url)
    {
      list := list + [Link(members[k].template.url, members[k].url)];
      k := k + 1;
    }
  }

  /** internalSerialize's document: the links, then the attributes, then the child groups. */
  method WriteDocument(inst: Instance) returns (doc: Document)
    requires inst.attributes.Valid()
    ensures doc == InstanceDocument(inst)
  {
    doc := EmptyMap().Put("links", Links([Link("self", inst.url), Link("help", inst.template.url)]));
    var attrs := inst.attributes;
    ghost var start := doc;
    var i := 0;
    while i < |attrs.keys|
      invariant 0 <= i <= |attrs.keys|
      invariant PutValues(start, attrs.keys, attrs.values) == PutValues(doc, attrs.keys[i..], attrs.values)
    {
      assert attrs.keys[i..][1..] == attrs.keys[i + 1..];
      doc := doc.Put(attrs.keys[i], Value(attrs.values[attrs.keys[i]]));
      i := i + 1;
    }
    ghost var afterValues := doc;
    var j := 0;
    while j < |inst.children|
      invariant 0 <= j <= |inst.children|
      invariant PutGroups(afterValues, inst.children, 0) == PutGroups(doc, inst.children, j)
    {
      var list := LinkList(inst.children[j].members);
      doc := doc.Put(inst.children[j].attribute, Links(list));
      j := j + 1;
    }
  }

  /** Every instance of the tree has a well-formed attribute map and distinct child group names. */
  ghost predicate Serializable(inst: Instance)
    decreases inst
  {
    && inst.attributes.Valid()
    && NoDuplicates(GroupNames(inst.children))
    && forall g, k :: 0 <= g < |inst.children| && 0 <= k < |inst.children[g].members| ==>
         Serializable(inst.children[g].members[k])
  }

  /**
   * The documents internalSerialize writes, in order, each with the URL of its file:
   * the instance's own, then those of each child group's members in turn.
   */
  function Written(inst: Instance): seq<(string, Document)>
    requires Serializable(inst)
    decreases inst, 1, 0, 0, 0
  {
    [(inst.url, InstanceDocument(inst))] + WrittenGroups(inst, 0)
  }

  /** The documents of the child groups from `j` on. */
  function WrittenGroups(inst: Instance, j: nat): seq<(string, Document)>
    requires Serializable(inst)
    decreases inst, 0, |inst.children| - j, 1, 0
  {
    if j >= |inst.children| then []
    else WrittenMembers(inst, j, 0) + WrittenGroups(inst, j + 1)
  }

  /** The documents of group `j`'s members from `k` on. */
  function WrittenMembers(inst: Instance, j: nat, k: nat): seq<(string, Document)>
    requires Serializable(inst) && j < |inst.children|
    decreases inst, 0, |inst.children| - j, 0, |inst.children[j].members| - k
  {
    if k >= |inst.children[j].members| then []
    else
      var child := inst.children[j].members[k];
      Written(child) + WrittenMembers(inst, j, k + 1)
  }

  /** Every instance a builder builds can be serialized. */
  lemma {:induction false} BuiltSerializable(nodes: seq<BuilderNode>, b: nat, co: Coercions)
    requires WellLinked(nodes) && b < |nodes| && BuiltTree(nodes, b, co).Ok?
    ensures Serializable(BuiltTree(nodes, b, co).value.instance)
    decreases |nodes| - b
  {
    var inst := BuiltTree(nodes, b, co).value.instance;
    BuiltTreeMirrors(nodes, b, co);
    assert NodeLinked(nodes, b);
    forall g, k | 0 <= g < |inst.children| && 0 <= k < |inst.children[g].members|
      ensures Serializable(inst.children[g].members[k])
    {
      assert |GroupNames(inst.children)| == |GroupNames(nodes[b].children)|;
      var c := ChildAt(nodes, b, g, k);
      assert MemberBuilt(nodes, b, g, k, co) == BuiltTree(nodes, c, co);
      BuiltSerializable(nodes, c, co);
    }
  }

  /** Group `j`'s member `k` writes its documents, then the members after it write theirs. */
  lemma WrittenMembersStep(inst: Instance, j: nat, k: nat)
    requires Serializable(inst) && j < |inst.children| && k < |inst.children[j].members|
    ensures Serializable(inst.children[j].members[k])
    ensures WrittenMembers(inst, j, k) == Written(inst.children[j].members[k]) + WrittenMembers(inst, j, k + 1)
  {
  }

  /** Group `j`'s members from `k` on write every document of member `m`. */
  lemma {:induction false} MembersContain(inst: Instance, j: nat, k: nat, m: nat)
    requires Serializable(inst) && j < |inst.children| && k <= m < |inst.children[j].members|
    ensures forall x :: x in Written(inst.children[j].members[m]) ==> x in WrittenMembers(inst, j, k)
    decreases |inst.children[j].members| - k
  {
    WrittenMembersStep(inst, j, k);
    var here, rest := Written(inst.children[j].members[k]), WrittenMembers(inst, j, k + 1);
    ConcatContains(here, rest);
    if k < m {
      MembersContain(inst, j, k + 1, m);
    }
  }

  /** Both halves of a concatenation are contained in it. */
  lemma ConcatContains(a: seq<(string, Document)>, b: seq<(string, Document)>)
    ensures forall x :: x in a ==> x in a + b
    ensures forall x :: x in b ==> x in a + b
  {
  }

  /** The groups from `j` on write every document of member `m` of group `g`. */
  lemma {:induction false} GroupsContain(inst: Instance, j: nat, g: nat, m: nat)
    requires Serializable(inst) && j <= g < |inst.children| && m < |inst.children[g].members|
    ensures forall x :: x in Written(inst.children[g].members[m]) ==> x in WrittenGroups(inst, j)
    decreases |inst.children| - j
  {
    WrittenGroupsStep(inst, j);
    ConcatContains(WrittenMembers(inst, j, 0), WrittenGroups(inst, j + 1));
    if j == g {
      MembersContain(inst, g, 0, m);
    } else {
      GroupsContain(inst, j + 1, g, m);
    }
  }

  /** Group `j` writes its members' documents, then the groups after it write theirs. */
  lemma WrittenGroupsStep(inst: Instance, j: nat)
    requires Serializable(inst) && j < |inst.children|
    ensures WrittenGroups(inst, j) == WrittenMembers(inst, j, 0) + WrittenGroups(inst, j + 1)
  {
  }

  /**
   * Serializing an instance writes, first, its own document, then every document its
   * children write; and each link a child group's list holds names a document written
   * by the same call.
   */
  lemma LinksResolve(inst: Instance)
    requires Serializable(inst)
    ensures Written(inst)[0] == (inst.url, InstanceDocument(inst))
      ensures forall g, k :: 0 <= g < |inst.children| && 0 <= k < |inst.children[g].members| ==>
      Serializable(inst.children[g].members[k])
    ensures forall g, k :: 0 <= g < |inst.children| && 0 <= k < |inst.children[g].members| ==>
      forall x :: x in Written(inst.children[g].members[k]) ==> x in Written(inst)
    ensures forall g :: 0 <= g < |inst.children| ==>
      InstanceDocument(inst).Get(inst.children[g].attribute) == Some(Links(ChildLinks(inst.children[g].members)))
    ensures forall g, k :: 0 <= g < |inst.children| && 0 <= k < |inst.children[g].members| ==>
      (ChildLinks(inst.children[g].members)[k].href, InstanceDocument(inst.children[g].members[k])) in Written(inst)
  {
    DocumentEntries(inst);
    forall g, k | 0 <= g < |inst.children| && 0 <= k < |inst.children[g].members|
      ensures forall x :: x in Written(inst.children[g].members[k]) ==> x in Written(inst)
      ensures (ChildLinks(inst.children[g].members)[k].href, InstanceDocument(inst.children[g].members[k])) in Written(inst)
    {
      var child := inst.children[g].members[k];
      GroupsContain(inst, 0, g, k);
      assert Written(child)[0] in Written(child);
    }
  }

  /** internalSerialize: this instance's document, then each child's, depth first. */
  method InternalSerialize(inst: Instance) returns (out: seq<(string, Document)>)
    requires Serializable(inst)
    ensures out == Written(inst)
    decreases inst, 1
  {
    var doc := WriteDocument(inst);
    out := [(inst.url, doc)];
    var j := 0;
    while j < |inst.children|
      invariant 0 <= j <= |inst.children|
      invariant Written(inst) == out + WrittenGroups(inst, j)
    {
      var written := SerializeMembers(inst, j);
      out := out + written;
      j := j + 1;
    }
  }

  /** The inner loop of internalSerialize: each member of group `j` in turn. */
  method SerializeMembers(inst: Instance, j: nat) returns (out: seq<(string, Document)>)
    requires Serializable(inst) && j < |inst.children|
    ensures out == WrittenMembers(inst, j, 0)
    decreases inst, 0
  {
    var members := inst.children[j].members;
    out := [];
    var k := 0;
    while k < |members|
      invariant 0 <= k <= |members|
      invariant WrittenMembers(inst, j, 0) == out + WrittenMembers(inst, j, k)
    {
      WrittenMembersStep(inst, j, k);
      var written := InternalSerialize(members[k]);
      assert out + WrittenMembers(inst, j, k) == (out + written) + WrittenMembers(inst, j, k + 1);
      out := out + written;
      k := k + 1;
    }
  }

  /** serialize: only a root instance may be serialized. */
  method Serialize(inst: Instance) returns (r: Result<seq<(string, Document)>, Error>)
    requires Serializable(inst)
    ensures inst.parent.Some? <==> r == Err(NotRootSerialize)
    ensures inst.parent.None? ==> r == Ok(Written(inst))
  {
    if inst.parent.Some? {
      return Err(NotRootSerialize);
    }
    var out := InternalSerialize(inst);
    return Ok(out);
  }
}
