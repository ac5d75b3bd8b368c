/**
 * Resource templates (ResourceTemplate.java): a kind's attributes compiled into a
 * template, with the inversion from child kind to the attribute that holds it, the
 * parent-validity test, the child-attribute lookup along the class chain, and the
 * template builder that collects the attributes.
 */
module Templates {
  import opened Wrappers
  import opened Collections
  import opened Kinds
  import opened Errors
  import opened Attributes

  /**
   * A compiled template. `attributeMap` keeps insertion order; `children` maps an
   * attribute name to the child classes it handles; `childrenByType` is its inversion.
   */
  datatype ResourceTemplate = ResourceTemplate(
    kind: ConcreteKind,
    attributeMap: OrderedMap<string, Attribute>,
    children: map<string, set<KindClass>>,
    childrenByType: map<KindClass, string>,
    url: string)

  // ---------------------------------------------------------------- the builder

  /** The fields of a ResourceTemplate.Builder. */
  datatype TemplateDraft = TemplateDraft(
    kind: ConcreteKind,
    attributes: OrderedMap<string, Attribute>,
    children: map<string, set<KindClass>>)
  {
    /** Every children entry is named after an attribute, and the attribute map is valid. */
    ghost predicate Valid() {
      attributes.Valid() && children.Keys <= attributes.values.Keys
    }

    /**
     * addAttribute: keyed by name, a later attribute replaces an earlier one in place;
     * createChildType records its handled classes, but only when there are some.
     */
    function AddAttribute(a: Attribute): TemplateDraft {
      TemplateDraft(kind, attributes.Put(a.name, a),
        if a.handledChildTypes != {} then children[a.name := a.handledChildTypes] else children)
    }
  }

  function EmptyDraft(kind: ConcreteKind): TemplateDraft {
    TemplateDraft(kind, EmptyMap(), map[])
  }

  /**
   * addAttribute keeps the builder valid; the attribute is then found under its name
   * and its handled classes (if any) under the same name, and nothing else changes.
   */
  lemma AddAttributeSpec(d: TemplateDraft, a: Attribute)
    requires d.Valid()
    ensures d.AddAttribute(a).Valid()
    ensures d.AddAttribute(a).attributes.Get(a.name) == Some(a)
    ensures forall n :: n != a.name ==> d.AddAttribute(a).attributes.Get(n) == d.attributes.Get(n)
    ensures a.handledChildTypes != {} ==> d.AddAttribute(a).children[a.name] == a.handledChildTypes
    ensures forall n :: n != a.name ==> (n in d.AddAttribute(a).children <==> n in d.children)
    ensures forall n :: n != a.name && n in d.children ==> d.AddAttribute(a).children[n] == d.children[n]
    ensures a.name in d.attributes.values ==> d.AddAttribute(a).attributes.keys == d.attributes.keys
  {
    PutProperties(d.attributes, a.name, a);
  }

  /**
   * Replacing an attribute by a same-named one that handles no classes leaves the
   * earlier attribute's classes recorded under the name.
   */
  lemma ReplacementKeepsChildren(d: TemplateDraft, a: Attribute, b: Attribute)
    requires a.name == b.name && a.handledChildTypes != {} && b.handledChildTypes == {}
    ensures d.AddAttribute(a).AddAttribute(b).attributes.Get(a.name) == Some(b)
    ensures d.AddAttribute(a).AddAttribute(b).children[a.name] == a.handledChildTypes
  {
  }

  /** ResourceTemplate.Builder: the maps addAttribute updates in place. */
  class TemplateBuilder {
    const kind: ConcreteKind
    var attributes: OrderedMap<string, Attribute>
    var children: map<string, set<KindClass>>

    function Current(): TemplateDraft
      reads this
    {
      TemplateDraft(kind, attributes, children)
    }

    constructor (kind: ConcreteKind)
      ensures Current() == EmptyDraft(kind) && Current().Valid()
    {
      this.kind := kind;
      attributes := EmptyMap();
      children := map[];
    }

    method AddAttribute(a: Attribute)
      requires Current().Valid()
      modifies this
      ensures Current() == old(Current()).AddAttribute(a) && Current().Valid()
    {
      AddAttributeSpec(Current(), a);
      attributes := attributes.Put(a.name, a);
      if a.handledChildTypes != {} {
        CreateChildType(a.name, a.handledChildTypes);
      }
    }

    /** createChildType: records a copy of the handled set under the attribute's name. */
    method CreateChildType(name: string, childTypes: set<KindClass>)
      modifies this
      ensures attributes == old(attributes) && children == old(children)[name := childTypes]
    {
      var copy: set<KindClass> := {};
      var todo := childTypes;
      while todo != {}
        invariant todo <= childTypes && copy == childTypes - todo
        decreases todo
      {
        var t :| t in todo;
        copy := copy + {t};
        todo := todo - {t};
      }
      assert copy == childTypes;
      children := children[name := copy];
    }
  }

  // ---------------------------------------------------------------- inversion

  /** No child class is handled under two different attribute names. */
  predicate Unambiguous(children: map<string, set<KindClass>>) {
    forall n1, n2, k :: n1 in children && n2 in children && k in children[n1] && k in children[n2] ==> n1 == n2
  }

  /** `inv` maps exactly the handled classes, each to the name that handles it. */
  predicate IsInversion(children: map<string, set<KindClass>>, inv: map<KindClass, string>) {
    && (forall k :: k in inv ==> inv[k] in children && k in children[inv[k]])
    && (forall n, k :: n in children && k in children[n] ==> k in inv)
  }

  /** An unambiguous map has exactly one inversion: every handled class maps back to its own name. */
  lemma InversionUnique(children: map<string, set<KindClass>>, inv: map<KindClass, string>, n: string, k: KindClass)
    requires Unambiguous(children) && IsInversion(children, inv)
    requires n in children && k in children[n]
    ensures k in inv && inv[k] == n
  {
  }

  /**
   * The constructor's nested loop over the children map (a HashMap, visited in an
   * unspecified order): each class is put under its name, and a class met a second
   * time is an "Ambiguous entry".
   */
  method InvertChildren(children: map<string, set<KindClass>>) returns (r: Result<map<KindClass, string>, Error>)
    ensures r.Ok? <==> Unambiguous(children)
    ensures r.Ok? ==> IsInversion(children, r.value)
    ensures r.Err? ==> (r.error.AmbiguousEntry? &&
      exists n1, n2 :: n1 in children && n2 in children && n1 != n2 &&
        r.error.kind in children[n1] && r.error.kind in children[n2])
  {
    var inv: map<KindClass, string> := map[];
    var remaining := children.Keys;
    ghost var done: set<string> := {};
    while remaining != {}
      invariant remaining <= children.Keys && done == children.Keys - remaining
      invariant forall k :: k in inv ==> inv[k] in done && k in children[inv[k]]
      invariant forall n, k :: n in done && k in children[n] ==> k in inv && inv[k] == n
      invariant forall n1, n2, k :: n1 in done && n2 in done && k in children[n1] && k in children[n2] ==> n1 == n2
      decreases remaining
    {
      var name :| name in remaining;
      var todo := children[name];
      while todo != {}
        invariant todo <= children[name]
        invariant forall k :: k in inv ==> (inv[k] in done || inv[k] == name) && k in children[inv[k]]
        invariant forall k :: k in inv && inv[k] == name ==> k !in todo
        invariant forall n, k :: n in done && k in children[n] ==> k in inv && inv[k] == n
        invariant forall k :: k in children[name] - todo ==> k in inv && inv[k] == name
        invariant forall n1, n2, k :: n1 in done && n2 in done && k in children[n1] && k in children[n2] ==> n1 == n2
        decreases todo
      {
        var k :| k in todo;
        if k in inv {
          return Err(AmbiguousEntry(k));
        }
        inv := inv[k := name];
        todo := todo - {k};
      }
      forall n1, n2, k | n1 in done + {name} && n2 in done + {name} && k in children[n1] && k in children[n2]
        ensures n1 == n2
      {
        assert k in inv && inv[k] == n1 && inv[k] == n2;
      }
      remaining := remaining - {name};
      done := done + {name};
    }
    return Ok(inv);
  }

  // ---------------------------------------------------------------- lookups

  /** isValidParent: the parent's kind is in this kind's parent set, compared by name (equals). */
  predicate IsValidParent(t: ResourceTemplate, parent: ResourceTemplate) {
    exists p :: p in Parents(t.kind) && KindEquals(Instance(p), Instance(parent.kind))
  }

  /** Since kind names are distinct, the by-name test is membership of the parent's kind. */
  lemma ValidParentIffListed(t: ResourceTemplate, parent: ResourceTemplate)
    ensures IsValidParent(t, parent) <==> parent.kind in Parents(t.kind)
  {
    if parent.kind in Parents(t.kind) {
      EqualsIsIdentity(parent.kind, parent.kind);
    }
    if IsValidParent(t, parent) {
      var p :| p in Parents(t.kind) && KindEquals(Instance(p), Instance(parent.kind));
      EqualsIsIdentity(p, parent.kind);
    }
  }

  /** NullType is a concrete kind with a template of its own, and that template is the only valid parent of a Domain. */
  lemma DomainParentIsNull(t: ResourceTemplate, parent: ResourceTemplate)
    requires t.kind == DomainClass
    ensures IsValidParent(t, parent) <==> parent.kind == NullClass
  {
    ValidParentIffListed(t, parent);
    RootKinds();
  }

  /** The first attribute name mapped along the class chain from `c` up to ManagedObjectType. */
  function FirstMapped(childrenByType: map<KindClass, string>, c: KindClass): Option<string>
    decreases Depth(c)
  {
    if c in childrenByType then Some(childrenByType[c])
    else match Superclass(c)
      case None => None
      case Some(s) => FirstMapped(childrenByType, s)
  }

  /** The mapping of the first class of `chain` that has one. */
  function FirstIn(childrenByType: map<KindClass, string>, chain: seq<KindClass>): Option<string> {
    if chain == [] then None
    else if chain[0] in childrenByType then Some(childrenByType[chain[0]])
    else FirstIn(childrenByType, chain[1..])
  }

  /** FirstIn finds nothing exactly when no class of the chain is mapped, and otherwise the first mapped one. */
  lemma {:induction false} FirstInSpec(childrenByType: map<KindClass, string>, chain: seq<KindClass>)
    ensures FirstIn(childrenByType, chain).None? <==> forall a :: a in chain ==> a !in childrenByType
    ensures FirstIn(childrenByType, chain).Some? ==>
      exists i :: 0 <= i < |chain| && chain[i] in childrenByType
        && FirstIn(childrenByType, chain).value == childrenByType[chain[i]]
        && forall j :: 0 <= j < i ==> chain[j] !in childrenByType
  {
    if chain != [] && chain[0] !in childrenByType {
      var rest := chain[1..];
      FirstInSpec(childrenByType, rest);
      assert forall a :: a in chain <==> a == chain[0] || a in rest;
      if FirstIn(childrenByType, rest).Some? {
        var i :| 0 <= i < |rest| && rest[i] in childrenByType
          && FirstIn(childrenByType, rest).value == childrenByType[rest[i]]
          && forall j :: 0 <= j < i ==> rest[j] !in childrenByType;
        assert chain[i + 1] == rest[i];
        assert forall j :: 1 <= j < i + 1 ==> chain[j] == rest[j - 1];
      }
    } else if chain != [] {
      assert chain[0] in chain;
    }
  }

  /** The walk up the superclasses is the first mapped class of the ancestor chain. */
  lemma {:induction false} FirstMappedAlongChain(childrenByType: map<KindClass, string>, c: KindClass)
    ensures FirstMapped(childrenByType, c) == FirstIn(childrenByType, AncestorChain(c))
    decreases Depth(c)
  {
    if c !in childrenByType {
      match Superclass(c)
      case None =>
        assert AncestorChain(c)[1..] == [];
      case Some(s) =>
        FirstMappedAlongChain(childrenByType, s);
        assert AncestorChain(c)[1..] == AncestorChain(s);
    }
  }

  /** getAttributeForChildType's answer: the first mapping up the chain, or failure naming the class. */
  function AttributeForChildType(t: ResourceTemplate, c: KindClass): Result<string, Error> {
    match FirstMapped(t.childrenByType, c)
    case Some(n) => Ok(n)
    case None => Err(NoAttributeForChild(c))
  }

  /** getAttributeForChildType: the while loop over `current`, stopping below ManagedObjectType. */
  method GetAttributeForChildType(t: ResourceTemplate, c: KindClass) returns (r: Result<string, Error>)
    ensures r == AttributeForChildType(t, c)
  {
    var current := c;
    while true
      invariant FirstMapped(t.childrenByType, current) == FirstMapped(t.childrenByType, c)
      decreases Depth(current)
    {
      if current in t.childrenByType {
        return Ok(t.childrenByType[current]);
      }
      if Superclass(current).None? {
        return Err(NoAttributeForChild(c));
      }
      current := Superclass(current).value;
    }
  }

  // ---------------------------------------------------------------- the parents document

  /** addParents: `allow-null-parent`, and the parents other than NullType in set order. */
  datatype ParentsDoc = ParentsDoc(allowNullParent: bool, parents: seq<ConcreteKind>)

  function WithoutNull(ps: seq<ConcreteKind>): (r: seq<ConcreteKind>)
    ensures forall p :: p in r <==> p in ps && p != NullClass
    ensures |r| <= |ps|
  {
    if ps == [] then []
    else (if ps[0] == NullClass then [] else [ps[0]]) + WithoutNull(ps[1..])
  }

  function ParentsDocument(kind: ConcreteKind): ParentsDoc {
    ParentsDoc(NullClass in Parents(kind), WithoutNull(Parents(kind)))
  }

  /**
   * `allow-null-parent` holds iff NullType is a parent, NullType is never listed, every
   * other parent is, and a kind that may only be a root lists no parent at all.
   */
  lemma ParentsDocumentSpec(kind: ConcreteKind)
    ensures ParentsDocument(kind).allowNullParent <==> AllowsNullParent(kind)
    ensures NullClass !in ParentsDocument(kind).parents
    ensures forall p :: p in Parents(kind) && p != NullClass ==> p in ParentsDocument(kind).parents
    ensures ParentsDocument(DomainClass) == ParentsDoc(true, [])
    ensures ParentsDocument(ServerClass) == ParentsDoc(true, [DomainClass])
  {
    ShownParentSets();
    assert WithoutNull([NullClass]) == [];
    assert [NullClass, DomainClass][1..] == [DomainClass];
  }
}
