/**
 * Attribute descriptors of a resource schema (Attribute.java): the fluent builder that
 * rejects malformed specs, the immutable attribute it builds, and the attribute's entry
 * in a template document.
 */
module Attributes {
  import opened Wrappers
  import opened AttributeTypes
  import opened Kinds
  import opened Errors
  import opened KindRegistry

  /** An attribute as built; `valueType` is null (None) for simple types. */
  datatype Attribute = Attribute(
    name: string,
    description: string,
    type_: AttributeType,
    valueType: Option<AttributeType>,
    nillable: bool,
    access: AttributeAccess,
    handledChildTypes: set<KindClass>)

  /** A child-relation attribute holds URLs: a URL, or a collection of URLs. */
  predicate UrlValued(type_: AttributeType, valueType: Option<AttributeType>) {
    type_ == URL || (!IsSimple(type_) && valueType == Some(URL))
  }

  /**
   * What every attribute the builder hands out satisfies: only a collection carries a
   * value type, a collection always does and it is not itself a collection, and an
   * attribute that handles child kinds is non-nillable and URL-valued.
   */
  predicate WellFormed(a: Attribute) {
    && (IsSimple(a.type_) ==> a.valueType.None?)
    && (!IsSimple(a.type_) ==> a.valueType.Some? && IsSimple(a.valueType.value))
    && (a.handledChildTypes != {} ==> !a.nillable && UrlValued(a.type_, a.valueType))
  }

  /** The fields of an Attribute.Builder. */
  datatype Draft = Draft(
    name: string,
    type_: AttributeType,
    description: string,
    nillable: bool,
    access: AttributeAccess,
    valueType: Option<AttributeType>,
    handled: set<KindClass>)
  {
    /** What the setters keep true of a builder: a value type only on a collection, never a collection. */
    predicate Consistent() {
      valueType.Some? ==> !IsSimple(type_) && IsSimple(valueType.value)
    }

    /** setNillable */
    function SetNillable(): Draft {
      this.(nillable := true)
    }

    /** setAccess */
    function SetAccess(a: AttributeAccess): Draft {
      this.(access := a)
    }

    /** addHandledChildTypes: set union with the given classes. */
    function AddHandledChildTypes(types: seq<KindClass>): Draft {
      this.(handled := handled + set t | t in types)
    }

    /** setValueType: only a collection takes one, and only a simple one. */
    function SetValueType(vt: AttributeType): (r: Result<Draft, Error>)
      ensures r.Ok? <==> !IsSimple(type_) && IsSimple(vt)
      ensures r.Ok? ==> r.value == this.(valueType := Some(vt))
      ensures r.Err? ==> r.error == (if IsSimple(type_) then CollectionsOnly else NestedCollection)
    {
      if IsSimple(type_) then Err(CollectionsOnly)
      else if !IsSimple(vt) then Err(NestedCollection)
      else Ok(this.(valueType := Some(vt)))
    }

    /** build: the three checks, in source order. */
    function Build(): (r: Result<Attribute, Error>)
      ensures r.Ok? <==>
        && (!IsSimple(type_) ==> valueType.Some?)
        && (handled != {} ==> !nillable && UrlValued(type_, valueType))
      ensures r.Ok? ==> r.value == Attribute(name, description, type_, valueType, nillable, access, handled)
      ensures r.Err? && !IsSimple(type_) && valueType.None? ==> r.error == NullValueType(type_)
      ensures r.Err? && (IsSimple(type_) || valueType.Some?) ==>
        r.error == (if nillable then NillableChild else ChildNotUrl)
    {
      if !IsSimple(type_) && valueType.None? then Err(NullValueType(type_))
      else if handled != {} && nillable then Err(NillableChild)
      else if handled != {} && !UrlValued(type_, valueType) then Err(ChildNotUrl)
      else Ok(Attribute(name, description, type_, valueType, nillable, access, handled))
    }
  }

  /** createBuilder: not nillable, READ_ONLY, no value type, no handled child types. */
  function CreateBuilder(name: string, type_: AttributeType, description: string): Draft {
    Draft(name, type_, description, false, READ_ONLY, None, {})
  }

  /** A fresh builder is consistent and every setter keeps it so. */
  lemma SettersKeepConsistent(d: Draft, a: AttributeAccess, types: seq<KindClass>, vt: AttributeType)
    requires d.Consistent()
    ensures d.SetNillable().Consistent() && d.SetAccess(a).Consistent()
    ensures d.AddHandledChildTypes(types).Consistent()
    ensures d.SetValueType(vt).Ok? ==> d.SetValueType(vt).value.Consistent()
  {
  }

  /** Every attribute built from a consistent builder is well-formed. */
  lemma BuildWellFormed(d: Draft)
    requires d.Consistent()
    ensures d.Build().Ok? ==> WellFormed(d.Build().value)
  {
  }

  /**
   * A fresh builder has the documented defaults, and it builds exactly when its type is
   * simple: a collection needs setValueType first.
   */
  lemma FreshBuilder(name: string, type_: AttributeType, description: string)
    ensures var d := CreateBuilder(name, type_, description);
      && d.Consistent() && !d.nillable && d.access == READ_ONLY && d.handled == {}
      && (d.Build().Ok? <==> IsSimple(type_))
  {
  }

  /** addHandledChildTypes is a set union: repeating a class, or the whole call, changes nothing. */
  lemma AddHandledIdempotent(d: Draft, types: seq<KindClass>, t: KindClass)
    ensures d.AddHandledChildTypes(types).AddHandledChildTypes(types) == d.AddHandledChildTypes(types)
    ensures d.AddHandledChildTypes([t, t]) == d.AddHandledChildTypes([t])
    ensures t in d.handled ==> d.AddHandledChildTypes([t]) == d
  {
    assert (set x | x in [t, t]) == {t};
    assert (set x | x in [t]) == {t};
  }

  /** Attribute.Builder: the fields the fluent setters update in place. */
  class AttributeBuilder {
    const name: string
    const type_: AttributeType
    const description: string
    var nillable: bool
    var access: AttributeAccess
    var valueType: Option<AttributeType>
    var handled: set<KindClass>

    function Current(): Draft
      reads this
    {
      Draft(name, type_, description, nillable, access, valueType, handled)
    }

    constructor (name: string, type_: AttributeType, description: string)
      ensures Current() == CreateBuilder(name, type_, description)
    {
      this.name := name;
      this.type_ := type_;
      this.description := description;
      nillable := false;
      access := READ_ONLY;
      valueType := None;
      handled := {};
    }

    method SetNillable()
      modifies this
      ensures Current() == old(Current()).SetNillable()
    {
      nillable := true;
    }

    method SetAccess(a: AttributeAccess)
      modifies this
      ensures Current() == old(Current()).SetAccess(a)
    {
      access := a;
    }

    /** The loop adding each class to the handled set. */
    method AddHandledChildTypes(types: seq<KindClass>)
      modifies this
      ensures Current() == old(Current()).AddHandledChildTypes(types)
    {
      var i := 0;
      while i < |types|
        invariant 0 <= i <= |types|
        invariant handled == old(handled) + set t | t in types[..i]
        invariant Current() == old(Current()).(handled := handled)
      {
        assert types[..i + 1] == types[..i] + [types[i]];
        handled := handled + {types[i]};
        i := i + 1;
      }
      assert types[..i] == types;
    }

    /** setValueType; on failure the builder is left as it was. */
    method SetValueType(vt: AttributeType) returns (r: Outcome<Error>)
      modifies this
      ensures var s := old(Current()).SetValueType(vt);
        && (r.Pass? <==> s.Ok?)
        && (s.Ok? ==> Current() == s.value)
        && (s.Err? ==> Current() == old(Current()) && r == Fail(s.error))
    {
      if IsSimple(type_) {
        return Fail(CollectionsOnly);
      }
      if !IsSimple(vt) {
        return Fail(NestedCollection);
      }
      valueType := Some(vt);
      return Pass;
    }

    method Build() returns (r: Result<Attribute, Error>)
      ensures r == Current().Build()
    {
      r := Current().Build();
    }
  }

  /**
   * The JSON entry of an attribute in a template document. `allowedTypes` holds the
   * singletons linked under "allowed-types", identified by their class; the link each
   * one becomes is written by Util.addTypeLinkToMap, which is not part of this model.
   */
  datatype AttributeDoc = AttributeDoc(
    description: string,
    type_: string,
    valueType: Option<string>,
    access: string,
    nillable: bool,
    allowedTypes: Option<set<ConcreteKind>>)

  /**
   * toModelNode: `value-type` only for a collection, `allowed-types` only when child
   * kinds are handled, each handled class looked up in the kind registry; the lookup of
   * an unregistered class throws. The HashSet is visited in an unspecified order, so
   * which unregistered class is reported is left open.
   */
  method ToModelNode(a: Attribute, instances: map<KindClass, ConcreteKind>) returns (r: Result<AttributeDoc, Error>)
    requires WellFormed(a)
    ensures r.Ok? <==> forall k :: k in a.handledChildTypes ==> k in instances
    ensures r.Ok? ==> && r.value.description == a.description
                      && r.value.type_ == TagName(a.type_)
                      && (r.value.valueType.Some? <==> !IsSimple(a.type_))
                      && (r.value.valueType.Some? ==> r.value.valueType.value == TagName(a.valueType.value))
                      && r.value.access == AccessName(a.access)
                      && r.value.nillable == a.nillable
                      && (r.value.allowedTypes.Some? <==> a.handledChildTypes != {})
                      && (r.value.allowedTypes.Some? ==>
                            r.value.allowedTypes.value == set k | k in a.handledChildTypes :: instances[k])
    ensures r.Err? ==> r.error.UnregisteredKind? && r.error.kind in a.handledChildTypes && r.error.kind !in instances
  {
    var valueType := if IsSimple(a.type_) then None else Some(TagName(a.valueType.value));
    var allowed: Option<set<ConcreteKind>> := None;
    if a.handledChildTypes != {} {
      var todo := a.handledChildTypes;
      var linked: set<ConcreteKind> := {};
      while todo != {}
        invariant todo <= a.handledChildTypes
        invariant forall k :: k in a.handledChildTypes - todo ==> k in instances
        invariant linked == set k | k in a.handledChildTypes - todo :: instances[k]
        decreases todo
      {
        var k :| k in todo;
        var singleton := GetInstanceForClass(instances, k);
        if singleton.Err? {
          return Err(singleton.error);
        }
        linked := linked + {instances[k]};
        todo := todo - {k};
      }
      allowed := Some(linked);
    }
    r := Ok(AttributeDoc(a.description, TagName(a.type_), valueType, AccessName(a.access), a.nillable, allowed));
  }
}
