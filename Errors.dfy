/** The exceptions the core throws, one constructor per distinct failure. */
module Errors {
  import opened Kinds
  import opened AttributeTypes

  datatype Error =
    // Attribute.Builder (IllegalStateException)
    | CollectionsOnly                     // setValueType on a simple type
    | NestedCollection                    // setValueType with a collection value type
    | NullValueType(type_: AttributeType) // build: a collection without value type
    | NillableChild                       // build: a child attribute that is nillable
    | ChildNotUrl                         // build: a child attribute that is not URL-valued
    // ResourceTemplate (IllegalStateException)
    | AmbiguousEntry(kind: KindClass)      // two attributes handle the same child class
    | NoAttributeForChild(kind: KindClass) // no attribute anywhere up the class chain
    // ManagedObjectType.setTemplate (IllegalStateException)
    | TemplateAlreadyBuilt(name: string)
    // ManagedObjectTypeRegistry.getInstanceForClass (IllegalArgumentException)
    | UnregisteredKind(kind: KindClass)
    // ResourceInstance.Builder and ResourceInstance
    | BadChildType                        // createChildBuilder (IllegalArgumentException)
    | NotRoot                             // build on a child builder
    | NotRootSerialize                    // serialize on a child instance
    | UnknownAttribute(name: string)      // a set or child attribute the template lacks
    | NotSet(name: string)                // a required attribute with no value and no children
    | NotAList(name: string)              // a LIST or MAP value of the wrong shape
    | UnknownType(type_: AttributeType)   // a value of a type validateSimpleValue has no case for
    | NotConvertible(type_: AttributeType) // the ModelNode accessor threw
    | InvalidUrl(name: string)            // MalformedURLException
    // JvmType.setDefaultAttributeValues (UnknownHostException wrapped in RuntimeException)
    | UnknownHost
    // UrlUtil.Factory's static initialiser: `new URL` rejected the servlet root
    | BadServletRoot(root: string)
    // ServletUrlRegistry.getReader: substring(0, -1) on a URL without '/'
    | NoSlash(url: string)
}
