/**
 * The resource kinds: one singleton descriptor per concrete ManagedObjectType
 * subclass, with its name, description, root name, parent kinds and the class
 * chain that the child-attribute lookup walks. Java reflection over the class
 * hierarchy becomes the explicit `Superclass` table.
 */
module Kinds {
  import opened Wrappers
  import opened Collections

  /**
   * The classes the core refers to. ManagedObject, DeployedObject and Module are
   * abstract; the others each have one singleton INSTANCE.
   */
  datatype KindClass =
    | ManagedObjectClass | DeployedObjectClass | ModuleClass
    | NullClass | DomainClass | ServerClass | JvmClass | ApplicationClass
    | AppClientModuleClass | EJBModuleClass | WebModuleClass | ServletClass

  predicate IsConcrete(c: KindClass) {
    !(c.ManagedObjectClass? || c.DeployedObjectClass? || c.ModuleClass?)
  }

  type ConcreteKind = c: KindClass | IsConcrete(c) witness DomainClass

  /**
   * Class.getSuperclass, with None for ManagedObjectType (whose superclass is Object).
   * Only DomainType, ServerType, JvmType, DeployedObjectType and WebModuleType are
   * part of this model; the other classes' superclasses are the evident ones.
   */
  function Superclass(c: KindClass): Option<KindClass> {
    match c
    case ManagedObjectClass => None
    case DeployedObjectClass => Some(ManagedObjectClass)
    case ModuleClass => Some(DeployedObjectClass)
    case ApplicationClass => Some(DeployedObjectClass)
    case AppClientModuleClass => Some(ModuleClass)
    case EJBModuleClass => Some(ModuleClass)
    case WebModuleClass => Some(ModuleClass)
    case _ => Some(ManagedObjectClass)
  }

  function Depth(c: KindClass): nat {
    match c
    case ManagedObjectClass => 0
    case DeployedObjectClass => 1
    case ModuleClass => 2
    case ApplicationClass => 2
    case AppClientModuleClass => 3
    case EJBModuleClass => 3
    case WebModuleClass => 3
    case _ => 1
  }

  /** The classes from `c` up to ManagedObjectType, most specific first. */
  function AncestorChain(c: KindClass): (chain: seq<KindClass>)
    decreases Depth(c)
    ensures |chain| == Depth(c) + 1
    ensures chain[0] == c && chain[|chain| - 1] == ManagedObjectClass
    ensures forall i :: 0 <= i < |chain| - 1 ==> Superclass(chain[i]) == Some(chain[i + 1])
  {
    match Superclass(c)
    case None => [c]
    case Some(s) => [c] + AncestorChain(s)
  }

  /** The singleton's constructor arguments. */
  datatype ManagedObjectType = ManagedObjectType(kind: ConcreteKind, name: string, description: string, rootName: Option<string>)

  /**
   * The INSTANCE of each concrete class. NullType, ApplicationType,
   * AppClientModuleType, EJBModuleType and ServletType are not part of this model:
   * their names below are stand-ins and their descriptions are left empty.
   */
  function Instance(c: ConcreteKind): (t: ManagedObjectType)
    ensures t.kind == c
  {
    match c
    case DomainClass => ManagedObjectType(c, "JEEDomain", DomainDescription, Some("domains"))
    // ServerType passes "server" as the description and the description text as the root name.
    case ServerClass => ManagedObjectType(c, "JEEServer", "server", Some(ServerRootName))
    case JvmClass => ManagedObjectType(c, "Jvm", JvmDescription, None)
    // DeployedObjectType drops its `path` argument and passes a null root name.
    case WebModuleClass => ManagedObjectType(c, "WebModule", WebModuleDescription, None)
    case NullClass => ManagedObjectType(c, "Null", "", None)
    case ApplicationClass => ManagedObjectType(c, "Application", "", None)
    case AppClientModuleClass => ManagedObjectType(c, "AppClientModule", "", None)
    case EJBModuleClass => ManagedObjectType(c, "EJBModule", "", None)
    case ServletClass => ManagedObjectType(c, "Servlet", "", None)
  }

  const DomainDescription := "The domain is the root concept, and there must be at least one"
  const ServerRootName := "Represents a Java EE server"
  const JvmDescription := "Identifies a JVM used by a server or a managed object"
  const WebModuleDescription := "Identifies a deployed WAR module"

  function Name(c: ConcreteKind): string {
    Instance(c).name
  }

  /**
   * getPath() is called by the URL helpers but is not defined in the shown
   * ManagedObjectType: this stand-in returns the `path` argument WebModuleType
   * passes to its constructor, and the lower-cased kind name otherwise.
   */
  function PathSegment(c: ConcreteKind): string {
    if c == WebModuleClass then "web-module" else LowerAscii(Name(c))
  }

  /** String.toLowerCase(Locale.ENGLISH), restricted to ASCII letters. */
  function LowerAscii(s: string): (r: string)
    ensures |r| == |s|
    ensures forall i :: 0 <= i < |s| ==> r[i] == if 'A' <= s[i] <= 'Z' then (s[i] as int + 32) as char else s[i]
  {
    if s == [] then []
    else [if 'A' <= s[0] <= 'Z' then (s[0] as int + 32) as char else s[0]] + LowerAscii(s[1..])
  }

  // ---------------------------------------------------------------- parents

  /**
   * The LinkedHashSet that `parents(...)` fills: first occurrences, in order.
   * Its loop is `CollectParents`; this function is what that loop computes.
   */
  function ParentSet(xs: seq<ConcreteKind>): seq<ConcreteKind> {
    if xs == [] then [] else LinkedAdd(ParentSet(xs[..|xs| - 1]), xs[|xs| - 1])
  }

  /** ManagedObjectType.parents: adds every argument to a fresh LinkedHashSet in turn. */
  method CollectParents(xs: seq<ConcreteKind>) returns (set_: seq<ConcreteKind>)
    ensures NoDuplicates(set_)
    ensures forall x :: x in set_ <==> x in xs
    ensures set_ == ParentSet(xs)
  {
    set_ := [];
    var i := 0;
    while i < |xs|
      invariant 0 <= i <= |xs|
      invariant set_ == ParentSet(xs[..i])
    {
      assert xs[..i + 1][..i] == xs[..i];
      set_ := LinkedAdd(set_, xs[i]);
      i := i + 1;
    }
    assert xs[..i] == xs;
    ParentSetProperties(xs);
  }

  /** Index of the first occurrence of x in xs. */
  function FirstIndex<T(==)>(xs: seq<T>, x: T): (k: nat)
    requires x in xs
    ensures k < |xs| && xs[k] == x && x !in xs[..k]
  {
    if xs[0] == x then 0 else 1 + FirstIndex(xs[1..], x)
  }

  /** The first index is the only index holding x with no x before it. */
  lemma {:induction false} FirstIndexUnique<T>(xs: seq<T>, x: T, k: nat)
    requires k < |xs| && xs[k] == x && x !in xs[..k]
    ensures FirstIndex(xs, x) == k
  {
    if k > 0 {
      assert xs[0] in xs[..k];
      assert xs[1..][k - 1] == x && xs[1..][..k - 1] == xs[..k][1..];
      FirstIndexUnique(xs[1..], x, k - 1);
    }
  }

  lemma FirstIndexOfPrefix<T>(xs: seq<T>, n: nat, x: T)
    requires n <= |xs| && x in xs[..n]
    ensures x in xs && FirstIndex(xs, x) == FirstIndex(xs[..n], x)
  {
    var k := FirstIndex(xs[..n], x);
    assert xs[..n][..k] == xs[..k];
    FirstIndexUnique(xs, x, k);
  }

  /**
   * parents(...) drops duplicates, keeps exactly the arguments, and orders them by
   * first occurrence.
   */
  lemma {:induction false} ParentSetProperties(xs: seq<ConcreteKind>)
    ensures NoDuplicates(ParentSet(xs))
    ensures forall x :: x in ParentSet(xs) <==> x in xs
    ensures forall i, j :: 0 <= i < j < |ParentSet(xs)| ==>
              FirstIndex(xs, ParentSet(xs)[i]) < FirstIndex(xs, ParentSet(xs)[j])
  {
    if xs != [] {
      var n := |xs| - 1;
      var front := xs[..n];
      var prev := ParentSet(front);
      var x := xs[n];
      ParentSetProperties(front);
      assert xs == front + [x];
      LinkedAddProperties(prev, x);
      var r := ParentSet(xs);
      assert r == LinkedAdd(prev, x);
      forall y | y in prev
        ensures y in xs && FirstIndex(xs, y) == FirstIndex(front, y)
      {
        FirstIndexOfPrefix(xs, n, y);
      }
      if x !in prev {
        assert x !in front;
        assert FirstIndex(xs, x) == n;
      }
      forall i, j | 0 <= i < j < |r|
        ensures FirstIndex(xs, r[i]) < FirstIndex(xs, r[j])
      {
        assert r[i] == prev[i];
        if j < |prev| {
          assert r[j] == prev[j];
        }
      }
    }
  }

  /** getParents of every concrete kind, in LinkedHashSet order. */
  function Parents(c: ConcreteKind): seq<ConcreteKind> {
    match c
    // Collections.singleton(NullType.INSTANCE)
    case DomainClass => [NullClass]
    case ServerClass => ParentSet([NullClass, DomainClass])
    case JvmClass => ParentSet([ServerClass, AppClientModuleClass, EJBModuleClass, WebModuleClass])
    // ModuleType is not part of this model; it is taken to inherit DeployedObjectType's parents.
    case WebModuleClass => LinkedAdd(DeployedObjectParents(), ApplicationClass)
    case ApplicationClass => DeployedObjectParents()
    case AppClientModuleClass => DeployedObjectParents()
    case EJBModuleClass => DeployedObjectParents()
    // NullType and ServletType are not part of this model.
    case NullClass => []
    case ServletClass => [WebModuleClass]
  }

  function DeployedObjectParents(): seq<ConcreteKind> {
    ParentSet([ServerClass, ApplicationClass])
  }

  /** getParentsForUriTemplate: getParents unless overridden, as JvmType does. */
  function ParentsForUriTemplate(c: ConcreteKind): seq<ConcreteKind> {
    if c == JvmClass then ParentSet([ServerClass]) else Parents(c)
  }

  /**
   * NullType is among the kind's parents: the template's `allow-null-parent` flag. Nothing
   * enforces it: createRootBuilder accepts a template of any kind.
   */
  predicate AllowsNullParent(c: ConcreteKind) {
    NullClass in Parents(c)
  }

  /** A LinkedHashSet filled from distinct elements keeps them all, in order. */
  lemma {:induction false} ParentSetOfDistinct(xs: seq<ConcreteKind>)
    requires NoDuplicates(xs)
    ensures ParentSet(xs) == xs
  {
    if xs != [] {
      var front := xs[..|xs| - 1];
      ParentSetOfDistinct(front);
      assert xs[|xs| - 1] !in front;
      assert front + [xs[|xs| - 1]] == xs;
    }
  }

  /** The parent sets of the shown kinds. */
  lemma ShownParentSets()
    ensures Parents(DomainClass) == [NullClass]
    ensures Parents(ServerClass) == [NullClass, DomainClass]
    ensures Parents(JvmClass) == [ServerClass, AppClientModuleClass, EJBModuleClass, WebModuleClass]
    ensures DeployedObjectParents() == [ServerClass, ApplicationClass]
    ensures Parents(WebModuleClass) == DeployedObjectParents()
    ensures ParentsForUriTemplate(JvmClass) == [ServerClass]
  {
    ParentSetOfDistinct([NullClass, DomainClass]);
    ParentSetOfDistinct([ServerClass, AppClientModuleClass, EJBModuleClass, WebModuleClass]);
    ParentSetOfDistinct([ServerClass, ApplicationClass]);
    ParentSetOfDistinct([ServerClass]);
  }

  /** Every parent set is duplicate-free, as a LinkedHashSet is. */
  lemma ParentSetsDistinct(c: ConcreteKind)
    ensures NoDuplicates(Parents(c)) && NoDuplicates(ParentsForUriTemplate(c))
  {
    ParentSetProperties([NullClass, DomainClass]);
    ParentSetProperties([ServerClass, AppClientModuleClass, EJBModuleClass, WebModuleClass]);
    ParentSetProperties([ServerClass, ApplicationClass]);
    ParentSetProperties([ServerClass]);
    LinkedAddProperties(DeployedObjectParents(), ApplicationClass);
  }

  /**
   * Domain's only parent is NullType, so only a NullType template can be a valid parent of
   * a Domain; Server allows a null parent or a Domain; the Jvm template does not allow a
   * null parent and has no root name.
   */
  lemma RootKinds()
    ensures AllowsNullParent(DomainClass) && forall p :: p in Parents(DomainClass) ==> p == NullClass
    ensures AllowsNullParent(ServerClass) && DomainClass in Parents(ServerClass)
    ensures !AllowsNullParent(JvmClass) && Instance(JvmClass).rootName == None
    ensures Instance(DomainClass).rootName == Some("domains")
  {
    ShownParentSets();
  }

  /** The URI-template parents are the parents, except for Jvm where they are a proper subset. */
  lemma UriTemplateParentsAreParents(c: ConcreteKind)
    ensures forall p :: p in ParentsForUriTemplate(c) ==> p in Parents(c)
    ensures c != JvmClass ==> ParentsForUriTemplate(c) == Parents(c)
    ensures c == JvmClass ==> |ParentsForUriTemplate(c)| < |Parents(c)|
  {
    ShownParentSets();
  }

  // ---------------------------------------------------------------- equality

  /** ManagedObjectType.equals: two kinds are equal when their names are. */
  predicate KindEquals(a: ManagedObjectType, b: ManagedObjectType) {
    a.name == b.name
  }

  /** Java's int: a 32-bit two's-complement value. */
  function ToInt32(x: int): (r: int)
    ensures -0x8000_0000 <= r < 0x8000_0000
    ensures (r - x) % 0x1_0000_0000 == 0
  {
    var m := x % 0x1_0000_0000;
    if m >= 0x8000_0000 then m - 0x1_0000_0000 else m
  }

  /**
   * String.hashCode: h = 31 * h + c over the characters, wrapping at 32 bits. Dafny
   * characters are Unicode scalar values while Java hashes UTF-16 code units, so the two
   * agree on strings within the Basic Multilingual Plane, which every kind name is.
   */
  function StringHashCode(s: string): int {
    if s == [] then 0 else ToInt32(31 * StringHashCode(s[..|s| - 1]) + s[|s| - 1] as int)
  }

  /** ManagedObjectType.hashCode: the name's hash. */
  function HashCode(t: ManagedObjectType): int {
    StringHashCode(t.name)
  }

  /** Name-based equality between the singletons is kind identity. */
  lemma EqualsIsIdentity(a: ConcreteKind, b: ConcreteKind)
    ensures KindEquals(Instance(a), Instance(b)) <==> a == b
  {
    if a != b {
      NamesDistinct(a, b);
    }
  }

  /** No two kinds share a name: names of equal length differ in their first or fourth letter. */
  lemma NamesDistinct(a: ConcreteKind, b: ConcreteKind)
    requires a != b
    ensures Name(a) != Name(b)
  {
    if |Name(a)| == |Name(b)| {
      assert Name(a)[0] != Name(b)[0] || Name(a)[3] != Name(b)[3];
    }
  }

  /** equals and hashCode agree, and the hash is a 32-bit value. */
  lemma HashAgreesWithEquals(a: ManagedObjectType, b: ManagedObjectType)
    ensures KindEquals(a, b) ==> HashCode(a) == HashCode(b)
    ensures -0x8000_0000 <= HashCode(a) < 0x8000_0000
  {
  }
}
