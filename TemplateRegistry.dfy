/**
 * Template creation and serialization (ResourceTemplate.createTemplate, the constructor,
 * serializeTemplates and serialize, with ManagedObjectType.setTemplate): every kind's
 * template is compiled once, recorded on the kind's singleton and appended to the list
 * of all templates, and the list is later written out in creation order.
 */
module TemplateCatalog {
  import opened Wrappers
  import opened Collections
  import opened AttributeTypes
  import opened Kinds
  import opened Errors
  import opened Attributes
  import opened Templates
  import opened KindSchemas
  import opened KindRegistry
  import opened Urls

  /** The template `createTemplate` builds for `kind` under the servlet root `root`. */
  ghost predicate Compiled(t: ResourceTemplate, root: string, kind: ConcreteKind) {
    && t.kind == kind
    && t.attributeMap == SchemaDraft(kind).attributes
    && t.children == OwnChildren(kind)
    && IsInversion(OwnChildren(kind), t.childrenByType)
    && t.url == TemplateUrl(root, kind)
  }

  /** Every attribute of the template is one a builder can produce, in a valid ordered map. */
  ghost predicate TemplateWellFormed(t: ResourceTemplate) {
    && t.attributeMap.Valid()
    && forall n :: n in t.attributeMap.values ==> WellFormed(t.attributeMap.values[n])
  }

  /** Every class an attribute of the template handles is in the kind registry. */
  predicate Serializable(t: ResourceTemplate, instances: map<KindClass, ConcreteKind>) {
    forall n :: n in t.attributeMap.values ==> t.attributeMap.values[n].handledChildTypes <= instances.Keys
  }

  // ---------------------------------------------------------------- documents

  /** The JSON document `serialize` writes for a template. */
  datatype TemplateDocument = TemplateDocument(
    selfHref: string,
    objectType: string,
    pathElement: string,
    description: string,
    parents: ParentsDoc,
    attributes: seq<(string, AttributeDoc)>)

  /** `doc` is what toModelNode returns for `a` (see Attributes.ToModelNode). */
  predicate Describes(doc: AttributeDoc, a: Attribute, instances: map<KindClass, ConcreteKind>) {
    && doc.description == a.description
    && doc.type_ == TagName(a.type_)
    && (doc.valueType.Some? <==> !IsSimple(a.type_))
    && (doc.valueType.Some? && a.valueType.Some? ==> doc.valueType.value == TagName(a.valueType.value))
    && doc.access == AccessName(a.access)
    && doc.nillable == a.nillable
    && (doc.allowedTypes.Some? <==> a.handledChildTypes != {})
    && (doc.allowedTypes.Some? ==>
          doc.allowedTypes.value == set k | k in a.handledChildTypes && k in instances :: instances[k])
  }

  /**
   * The document of `t`: a self link to the template URL, the kind's name, path and
   * description, its parents, and one entry per attribute in the template's order.
   */
  predicate DocumentOf(doc: TemplateDocument, t: ResourceTemplate, instances: map<KindClass, ConcreteKind>) {
    && doc.selfHref == t.url
    && doc.objectType == Name(t.kind)
    && doc.pathElement == PathSegment(t.kind)
    && doc.description == Instance(t.kind).description
    && doc.parents == ParentsDocument(t.kind)
    && |doc.attributes| == |t.attributeMap.keys|
    && forall i :: 0 <= i < |doc.attributes| ==>
         && doc.attributes[i].0 == t.attributeMap.keys[i]
         && t.attributeMap.keys[i] in t.attributeMap.values
         && Describes(doc.attributes[i].1, t.attributeMap.values[t.attributeMap.keys[i]], instances)
  }

  /**
   * serialize: the links, the kind's fields, the parents, then each attribute's
   * toModelNode in insertion order; the first attribute that handles an unregistered
   * class stops it.
   */
  method SerializeTemplate(t: ResourceTemplate, instances: map<KindClass, ConcreteKind>)
    returns (r: Result<TemplateDocument, Error>)
    requires TemplateWellFormed(t)
    ensures r.Ok? <==> Serializable(t, instances)
    ensures r.Ok? ==> DocumentOf(r.value, t, instances)
    ensures r.Err? ==> (r.error.UnregisteredKind? && r.error.kind !in instances &&
      exists n :: n in t.attributeMap.values && r.error.kind in t.attributeMap.values[n].handledChildTypes)
  {
    var keys := t.attributeMap.keys;
    var attributes: seq<(string, AttributeDoc)> := [];
    var i := 0;
    while i < |keys|
      invariant 0 <= i <= |keys| && |attributes| == i
      invariant forall j :: 0 <= j < i ==>
        && attributes[j].0 == keys[j]
        && keys[j] in t.attributeMap.values
        && t.attributeMap.values[keys[j]].handledChildTypes <= instances.Keys
        && Describes(attributes[j].1, t.attributeMap.values[keys[j]], instances)
    {
      var a := t.attributeMap.values[keys[i]];
      var doc := ToModelNode(a, instances);
      if doc.Err? {
        return Err(doc.error);
      }
      RegisteredImage(a.handledChildTypes, instances);
      attributes := attributes + [(keys[i], doc.value)];
      i := i + 1;
    }
    HandledRegisteredFromKeys(t, instances);
    r := Ok(TemplateDocument(t.url, Name(t.kind), PathSegment(t.kind), Instance(t.kind).description,
      ParentsDocument(t.kind), attributes));
  }

  /** Over registered classes, the image of the handled set needs no membership filter. */
  lemma RegisteredImage(handled: set<KindClass>, instances: map<KindClass, ConcreteKind>)
    requires handled <= instances.Keys
    ensures (set k | k in handled :: instances[k]) == (set k | k in handled && k in instances :: instances[k])
  {
  }

  /** What holds of the attribute under every key holds of every attribute. */
  lemma HandledRegisteredFromKeys(t: ResourceTemplate, instances: map<KindClass, ConcreteKind>)
    requires TemplateWellFormed(t)
    requires forall j :: 0 <= j < |t.attributeMap.keys| ==>
      t.attributeMap.keys[j] in t.attributeMap.values && t.attributeMap.values[t.attributeMap.keys[j]].handledChildTypes <= instances.Keys
    ensures forall n :: n in t.attributeMap.values ==> t.attributeMap.values[n].handledChildTypes <= instances.Keys
  {
    forall n | n in t.attributeMap.values
      ensures t.attributeMap.values[n].handledChildTypes <= instances.Keys
    {
      var j :| 0 <= j < |t.attributeMap.keys| && t.attributeMap.keys[j] == n;
    }
  }

  // ---------------------------------------------------------------- the catalog

  /**
   * The part of createTemplate before the template is recorded: a builder gets the
   * kind's attribute descriptions, the constructor inverts the children map (this never
   * finds an ambiguous entry) and computes the template URL.
   */
  method Compile(root: string, kind: ConcreteKind) returns (t: ResourceTemplate)
    requires |root| > 0
    ensures Compiled(t, root, kind) && TemplateWellFormed(t)
  {
    var b := new TemplateBuilder(kind);
    AddAttributeDescriptions(kind, b);
    SchemaChildren(kind);
    OwnChildrenUnambiguous(kind);
    var inv := InvertChildren(b.children);
    assert inv.Ok?;
    var url := AppendUrl(root, ["templates", LowerAscii(Name(kind))]);
    t := ResourceTemplate(kind, b.attributes, b.children, inv.value, url);
    CompiledWellFormed(t, root, kind);
  }

  /**
   * The static state template creation touches: `slots` holds each singleton's
   * `template` field (set once), `all` is ALL_TEMPLATES, `root` the URL helper's servlet root.
   */
  class Catalog {
    const root: string
    var slots: map<ConcreteKind, ResourceTemplate>
    var all: seq<ResourceTemplate>

    ghost predicate Valid()
      reads this
    {
      CatalogValid(root, slots, all)
    }

    constructor (root: string)
      requires |root| > 0
      ensures Valid() && this.root == root && slots == map[] && all == []
    {
      this.root := root;
      slots := map[];
      all := [];
    }

    /** setTemplate: a kind's template field can be set once; a second time throws. */
    method SetTemplate(t: ResourceTemplate) returns (r: Outcome<Error>)
      modifies this
      ensures r.Pass? <==> t.kind !in old(slots)
      ensures r.Pass? ==> slots == old(slots)[t.kind := t]
      ensures r.Fail? ==> r.error == TemplateAlreadyBuilt(Name(t.kind)) && slots == old(slots)
      ensures all == old(all)
    {
      if t.kind in slots {
        return Fail(TemplateAlreadyBuilt(Name(t.kind)));
      }
      slots := slots[t.kind := t];
      return Pass;
    }

    /**
     * createTemplate: a builder gets the kind's attribute descriptions, the constructor
     * inverts the children map, computes the template URL and records the template on
     * the kind, and only then is it appended to the list. The inversion cannot fail for
     * any kind, so a second creation for the same kind is the only failure.
     */
    method CreateTemplate(kind: ConcreteKind) returns (r: Result<ResourceTemplate, Error>)
      requires Valid()
      modifies this
      ensures Valid()
      ensures r.Ok? <==> kind !in old(slots)
      ensures r.Ok? ==> Compiled(r.value, root, kind)
      ensures r.Ok? ==> slots == old(slots)[kind := r.value] && all == old(all) + [r.value]
      ensures r.Err? ==> r.error == TemplateAlreadyBuilt(Name(kind)) && slots == old(slots) && all == old(all)
    {
      var t := Compile(root, kind);
      r := Record(t);
    }

    /**
     * The end of createTemplate: setTemplate records the template on its kind, and only
     * when that succeeds is it appended to ALL_TEMPLATES.
     */
    method Record(t: ResourceTemplate) returns (r: Result<ResourceTemplate, Error>)
      requires Valid() && TemplateWellFormed(t)
      modifies this
      ensures Valid()
      ensures r.Ok? <==> t.kind !in old(slots)
      ensures r.Ok? ==> r.value == t && slots == old(slots)[t.kind := t] && all == old(all) + [t]
      ensures r.Err? ==> r.error == TemplateAlreadyBuilt(Name(t.kind)) && slots == old(slots) && all == old(all)
    {
      RecordKeepsValid(root, slots, all, t);
      var o := SetTemplate(t);
      if o.Fail? {
        return Err(o.error);
      }
      all := all + [t];
      return Ok(t);
    }

    /** serializeTemplates: every template in creation order, stopping at the first failure. */
    method SerializeTemplates(instances: map<KindClass, ConcreteKind>) returns (r: Result<seq<TemplateDocument>, Error>)
      requires Valid()
      ensures r.Ok? <==> forall i :: 0 <= i < |all| ==> Serializable(all[i], instances)
      ensures r.Ok? ==> |r.value| == |all| && forall i :: 0 <= i < |all| ==> DocumentOf(r.value[i], all[i], instances)
      ensures r.Err? ==> exists i :: 0 <= i < |all| && !Serializable(all[i], instances)
    {
      var docs: seq<TemplateDocument> := [];
      var i := 0;
      while i < |all|
        invariant 0 <= i <= |all| && |docs| == i
        invariant forall j :: 0 <= j < i ==> Serializable(all[j], instances) && DocumentOf(docs[j], all[j], instances)
      {
        var d := SerializeTemplate(all[i], instances);
        if d.Err? {
          return Err(d.error);
        }
        docs := docs + [d.value];
        i := i + 1;
      }
      return Ok(docs);
    }
  }

  // ---------------------------------------------------------------- lemmas

  /**
   * The catalog's invariant: `all` lists exactly the recorded templates, one per kind,
   * each under its own kind and well formed, and the servlet root is not empty.
   */
  ghost predicate CatalogValid(root: string, slots: map<ConcreteKind, ResourceTemplate>, all: seq<ResourceTemplate>) {
    && |root| > 0
    && (forall i :: 0 <= i < |all| ==> all[i].kind in slots && slots[all[i].kind] == all[i])
    && (forall k :: k in slots ==> exists i :: 0 <= i < |all| && all[i].kind == k)
    && (forall i, j :: 0 <= i < j < |all| ==> all[i].kind != all[j].kind)
    && (forall i :: 0 <= i < |all| ==> TemplateWellFormed(all[i]))
  }

  /** Recording a well-formed template for a kind that has none, and appending it, keeps the invariant. */
  lemma RecordKeepsValid(root: string, slots: map<ConcreteKind, ResourceTemplate>, all: seq<ResourceTemplate>, t: ResourceTemplate)
    requires CatalogValid(root, slots, all) && TemplateWellFormed(t)
    ensures t.kind !in slots ==> CatalogValid(root, slots[t.kind := t], all + [t])
  {
    if t.kind !in slots {
      RecordKeepsEntries(slots, all, t);
      RecordKeepsListed(slots, all, t, slots[t.kind := t], all + [t]);
    }
  }

  /** After the append every entry of the list is recorded under its kind, and kinds stay distinct. */
  lemma RecordKeepsEntries(slots: map<ConcreteKind, ResourceTemplate>, all: seq<ResourceTemplate>, t: ResourceTemplate)
    requires forall i :: 0 <= i < |all| ==> all[i].kind in slots && slots[all[i].kind] == all[i]
    requires forall i, j :: 0 <= i < j < |all| ==> all[i].kind != all[j].kind
    requires t.kind !in slots
    ensures var all' := all + [t];
      && (forall i :: 0 <= i < |all'| ==> all'[i].kind in slots[t.kind := t] && slots[t.kind := t][all'[i].kind] == all'[i])
      && (forall i, j :: 0 <= i < j < |all'| ==> all'[i].kind != all'[j].kind)
  {
    var all' := all + [t];
    forall i | 0 <= i < |all|
      ensures all[i].kind != t.kind && all'[i] == all[i]
    {
    }
  }

  /** After the append every recorded kind still has an entry in the list. */
  lemma RecordKeepsListed(slots: map<ConcreteKind, ResourceTemplate>, all: seq<ResourceTemplate>, t: ResourceTemplate,
                          slots': map<ConcreteKind, ResourceTemplate>, all': seq<ResourceTemplate>)
    requires forall k :: k in slots ==> exists i :: 0 <= i < |all| && all[i].kind == k
    requires slots' == slots[t.kind := t] && all' == all + [t]
    ensures forall k :: k in slots' ==> exists i :: 0 <= i < |all'| && all'[i].kind == k
  {
    forall k | k in slots'
      ensures exists i :: 0 <= i < |all'| && all'[i].kind == k
    {
      if k == t.kind {
        assert all'[|all|].kind == k;
      } else {
        var i :| 0 <= i < |all| && all[i].kind == k;
        assert all'[i].kind == k;
      }
    }
  }

  /** Every attribute the builder holds after `AddAll` came from `attrs` or was there before. */
  lemma {:induction false} AddAllValuesFrom(d: TemplateDraft, attrs: seq<Attribute>)
    ensures forall n :: n in AddAll(d, attrs).attributes.values ==>
      AddAll(d, attrs).attributes.values[n] in attrs ||
      (n in d.attributes.values && AddAll(d, attrs).attributes.values[n] == d.attributes.values[n])
  {
    if attrs != [] {
      var init := attrs[..|attrs| - 1];
      AddAllValuesFrom(d, init);
      forall a | a in init
        ensures a in attrs
      {
        var j :| 0 <= j < |init| && init[j] == a;
        assert attrs[j] == a;
      }
    }
  }

  /** Every attribute of a compiled template comes from its kind's attribute descriptions. */
  lemma CompiledFromSchema(t: ResourceTemplate, root: string, kind: ConcreteKind)
    requires Compiled(t, root, kind)
    ensures forall n :: n in t.attributeMap.values ==> t.attributeMap.values[n] in Schema(kind)
  {
    AddAllValuesFrom(EmptyDraft(kind), Schema(kind));
  }

  /** A compiled template is well formed: its attribute map is valid and every attribute was built. */
  lemma CompiledWellFormed(t: ResourceTemplate, root: string, kind: ConcreteKind)
    requires Compiled(t, root, kind)
    ensures Compiled(t, root, kind) && TemplateWellFormed(t)
  {
    AddAllValid(EmptyDraft(kind), Schema(kind));
    CompiledFromSchema(t, root, kind);
    SchemaWellFormed(kind);
  }

  /** The last attribute added is the one found under its name. */
  lemma LastAddedFound(kind: ConcreteKind)
    requires |Schema(kind)| > 0
    ensures var a := Schema(kind)[|Schema(kind)| - 1];
      SchemaDraft(kind).attributes.Get(a.name) == Some(a)
  {
  }

  /** The last attribute a kind adds is the last of its descriptions, and the template holds it under its name. */
  lemma LastOwnAttributeHeld(t: ResourceTemplate, root: string, kind: ConcreteKind)
    requires Compiled(t, root, kind) && |OwnSchema(kind)| > 0
    ensures var a := OwnSchema(kind)[|OwnSchema(kind)| - 1];
      a.name in t.attributeMap.values && t.attributeMap.values[a.name] == a
  {
    var s := Schema(kind);
    assert s[|s| - 1] == OwnSchema(kind)[|OwnSchema(kind)| - 1];
    LastAddedFound(kind);
  }

  /**
   * A compiled Server template holds `deployedObjects`, which handles WebModule, and a
   * WebModule template holds `servlets`, which handles Servlet: neither class is in the
   * registry the static initialiser fills, so neither template can be written.
   */
  lemma ServerAndWebModuleNotSerializable(t: ResourceTemplate, root: string, kind: ConcreteKind, instances: map<KindClass, ConcreteKind>)
    requires Compiled(t, root, kind) && instances.Keys == RegisteredClasses
    requires kind == ServerClass || kind == WebModuleClass
    ensures !Serializable(t, instances)
  {
    var last: Attribute;
    var k: KindClass;
    if kind == ServerClass {
      last, k := ServerLastAttribute();
    } else {
      last, k := WebModuleLastAttribute();
    }
    LastOwnAttributeHeld(t, root, kind);
    assert last.name in t.attributeMap.values && t.attributeMap.values[last.name] == last;
    assert k !in instances;
    UnregisteredBlocks(t, instances, last.name, k);
  }

  lemma ServerLastAttribute() returns (last: Attribute, k: KindClass)
    ensures |OwnSchema(ServerClass)| > 0 && last == OwnSchema(ServerClass)[|OwnSchema(ServerClass)| - 1]
    ensures k in last.handledChildTypes && k == WebModuleClass && k !in RegisteredClasses
  {
    DomainAndServerSchemas();
    assert |OwnSchema(ServerClass)| == |Names(OwnSchema(ServerClass))| == 4;
    last, k := OwnSchema(ServerClass)[3], WebModuleClass;
  }

  lemma WebModuleLastAttribute() returns (last: Attribute, k: KindClass)
    ensures |OwnSchema(WebModuleClass)| > 0 && last == OwnSchema(WebModuleClass)[|OwnSchema(WebModuleClass)| - 1]
    ensures k in last.handledChildTypes && k == ServletClass && k !in RegisteredClasses
  {
    WebModuleSchema();
    assert |OwnSchema(WebModuleClass)| == |Names(OwnSchema(WebModuleClass))| == 2;
    last, k := OwnSchema(WebModuleClass)[1], ServletClass;
  }

  lemma UnregisteredBlocks(t: ResourceTemplate, instances: map<KindClass, ConcreteKind>, n: string, k: KindClass)
    requires n in t.attributeMap.values && k in t.attributeMap.values[n].handledChildTypes && k !in instances
    ensures !Serializable(t, instances)
  {
  }

  /** Every other kind's descriptions handle at most the Server class. */
  lemma OtherSchemasHandleServersOnly(kind: ConcreteKind)
    requires kind != ServerClass && kind != WebModuleClass
    ensures forall a :: a in Schema(kind) ==> a.handledChildTypes <= {ServerClass}
  {
    BaseSchemaShape(Name(kind));
    forall a | a in Schema(kind)
      ensures a.handledChildTypes <= {ServerClass}
    {
      if a !in BaseSchema(Name(kind)) {
        assert a in OwnSchema(kind);
      }
    }
  }

  /**
   * With the registry the static initialiser fills, a compiled template can be written
   * exactly when its kind is neither Server nor WebModule.
   */
  lemma RegisteredSerializable(t: ResourceTemplate, root: string, kind: ConcreteKind, instances: map<KindClass, ConcreteKind>)
    requires Compiled(t, root, kind) && instances.Keys == RegisteredClasses
    ensures Serializable(t, instances) <==> kind != ServerClass && kind != WebModuleClass
  {
    if kind == ServerClass || kind == WebModuleClass {
      ServerAndWebModuleNotSerializable(t, root, kind, instances);
    } else {
      CompiledFromSchema(t, root, kind);
      OtherSchemasHandleServersOnly(kind);
    }
  }

  /**
   * With every concrete class registered, every compiled template can be written,
   * the Server and WebModule templates included.
   */
  lemma CompleteRegistrySerializable(t: ResourceTemplate, root: string, kind: ConcreteKind, instances: map<KindClass, ConcreteKind>)
    requires Compiled(t, root, kind) && instances.Keys == ConcreteClasses
    ensures Serializable(t, instances)
  {
    CompiledFromSchema(t, root, kind);
    SchemaHandlesConcreteOnly(kind);
    forall n | n in t.attributeMap.values
      ensures t.attributeMap.values[n].handledChildTypes <= instances.Keys
    {
      ConcreteRegistered(t.attributeMap.values[n].handledChildTypes, instances);
    }
  }

  lemma ConcreteRegistered(cs: set<KindClass>, instances: map<KindClass, ConcreteKind>)
    requires instances.Keys == ConcreteClasses && forall c :: c in cs ==> IsConcrete(c)
    ensures cs <= instances.Keys
  {
  }
}
