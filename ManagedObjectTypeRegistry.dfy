/**
 * ManagedObjectTypeRegistry: the class-to-singleton map filled once by the static
 * initialiser, and the lookup that fails for a class that was not added. The static
 * map becomes the field of a `Registry` object. Every addType call passes a class's
 * INSTANCE singleton, so an entry's value is identified by that singleton's class and
 * the singleton itself is `Instance` of it.
 */
module KindRegistry {
  import opened Wrappers
  import opened Kinds
  import opened Errors

  /** The classes whose singleton the static initialiser registers. */
  const RegisteredClasses: set<KindClass> :=
    {DomainClass, NullClass, ServerClass, JvmClass, ApplicationClass, AppClientModuleClass}

  /** Every concrete class of the model. */
  const ConcreteClasses: set<KindClass> :=
    RegisteredClasses + {EJBModuleClass, WebModuleClass, ServletClass}

  /** `instances.put(type.getClass(), type)`: an entry maps a class to its own singleton. */
  predicate Coherent(instances: map<KindClass, ConcreteKind>) {
    forall k :: k in instances ==> instances[k] == k
  }

  /** getInstanceForClass over a registry map. */
  function GetInstanceForClass(instances: map<KindClass, ConcreteKind>, c: KindClass): (r: Result<ManagedObjectType, Error>)
    ensures r.Ok? <==> c in instances
    ensures r.Ok? ==> r.value == Instance(instances[c])
    ensures r.Err? ==> r.error == UnregisteredKind(c)
  {
    if c in instances then Ok(Instance(instances[c])) else Err(UnregisteredKind(c))
  }

  class Registry {
    var instances: map<KindClass, ConcreteKind>

    constructor ()
      ensures instances == map[]
    {
      instances := map[];
    }

    /** addType: keyed by the singleton's class; adding the same class again overwrites. */
    method AddType(t: ConcreteKind)
      modifies this
      ensures instances == old(instances)[t := t]
    {
      instances := instances[t := t];
    }

    /** initialiseInstances: the six addType calls, in source order. */
    method InitialiseInstances()
      requires instances == map[]
      modifies this
      ensures instances.Keys == RegisteredClasses && Coherent(instances)
    {
      AddType(DomainClass);
      AddType(NullClass);
      AddType(ServerClass);
      AddType(JvmClass);
      AddType(ApplicationClass);
      AddType(AppClientModuleClass);
    }

    /**
     * The registry the example evidently needs: every concrete class, including the
     * WebModule, EJBModule and Servlet classes that the Server and WebModule schemas hold.
     */
    method InitialiseAllInstances()
      requires instances == map[]
      modifies this
      ensures instances.Keys == ConcreteClasses && Coherent(instances)
    {
      InitialiseInstances();
      AddType(EJBModuleClass);
      AddType(WebModuleClass);
      AddType(ServletClass);
    }
  }

  /**
   * In the initialised registry a lookup returns the class's own singleton for the six
   * registered classes and fails with the class for every other one.
   */
  lemma InitialisedLookup(instances: map<KindClass, ConcreteKind>, c: KindClass)
    requires instances.Keys == RegisteredClasses && Coherent(instances)
    ensures c in RegisteredClasses ==> IsConcrete(c) && GetInstanceForClass(instances, c) == Ok(Instance(c))
    ensures c !in RegisteredClasses ==> GetInstanceForClass(instances, c) == Err(UnregisteredKind(c))
  {
  }

  /**
   * addType keeps the registry coherent; afterwards a lookup of the added class returns
   * its singleton and every other class looks up as before.
   */
  lemma AddTypeLookup(m: map<KindClass, ConcreteKind>, t: ConcreteKind, d: KindClass)
    requires Coherent(m)
    ensures Coherent(m[t := t])
    ensures GetInstanceForClass(m[t := t], t) == Ok(Instance(t))
    ensures d != t ==> GetInstanceForClass(m[t := t], d) == GetInstanceForClass(m, d)
  {
  }
}
