# JSR-373 example generator: schema and instance engine in Dafny

This project models the core of the JSR-373 (Java EE Management REST API) example generator. The generator describes each kind of managed object (domain, server, JVM, deployed modules, ...) and compiles every kind's attribute descriptions into a resource template. It builds trees of resource instances and writes templates and instances out as linked JSON documents. The model covers:

- **Attribute descriptors** (`Attributes`, `AttributeTypes`). The fluent `Attribute.Builder` appears twice: as a pure `Draft` value and as the `AttributeBuilder` class whose setters update it in place. Its `build` rejects a collection without a value type, nested collections, and child-holding attributes that are nillable or not URL-valued. `toModelNode` becomes `ToModelNode`, which fails for a handled class missing from the kind registry.
- **Kinds** (`Kinds`, `KindSchemas`, `KindRegistry`). Each concrete `ManagedObjectType` singleton is a `KindClass` value with an explicit superclass table. The parent sets are built with `parents(...)`, which keeps first occurrences. The model also covers name-based `equals`/`hashCode` (a 32-bit hash), each kind's attribute descriptions and default values, and the class → singleton registry.
- **Templates** (`Templates`, `TemplateCatalog`). The template builder is keyed by attribute name. Compiling inverts "attribute → handled classes" into "class → attribute" and fails on an ambiguous class. The model also covers `isValidParent`, the child-attribute lookup that walks the ancestor chain, the set-once template slot on each kind, the ordered list of all templates, and the template document.
- **Instances** (`Instances`). Instance builders form an arena: `BuilderForest.nodes`, with builders referred to by index. On top of it the model covers child creation guarded by the parent check, and the root-only `build`. `build` checks unknown, missing and ill-typed attributes, then builds the tree top-down and links every child under the attribute its kind maps to. Root-only `serialize` writes one link document per instance: self and help links, attributes, and `{rel, href}` child lists in insertion order.
- **Servlet URLs** (`Urls`). The model covers `appendURL` path joining, the template and instance URL shapes, and the in-memory `ServletUrlRegistry`. The registry's `getReader` returns the stored document on an exact match. Otherwise it returns the list of documents one `/` segment below the requested URL.

Several facts follow from the code as written, and the model proves each of them.

- **Servers need deployed objects.** A server whose only children are JVMs, and on which `deployedObjects` was never set, cannot be built. The server's `deployedObjects` attribute is required: it is not nillable, has no default, and no child backs it. `ServerWithOnlyJvmsFails` proves that the build check of such a builder fails.
- **DATE values.** `ManagedObjectType` uses a `DATE` attribute type that the shown `AttributeType` lacks. The model adds it as a tenth tag and takes it to be simple, like every other scalar tag. Much rests on that choice:
  - If `DATE` were not simple, `build` would fail with "Null value type" for the base attribute `start-time`, because no value type is set for it. Every template would then fail to compile.
  - `SchemaWellFormed`, `Compile`, `CompiledWellFormed` and `RegisteredSerializable` all rest on this assumption.
  - A defined `DATE` value falls to the unknown-type branch of value validation and is rejected (`SimpleCheckSpec`).
- **Child creation.** Child builders are created with the two-argument `createChildBuilder` of `ResourceInstance.java`.
- **Stubs.** `getPath`, the template builder's `getType` and the instance builder's `getName` are called but not defined in the files modelled here. `Kinds.PathSegment` and the kind and instance names stand in for them.

## Model

| member | source | states |
|---|---|---|
| Attributes.Draft.SetValueType | src/main/java/org/jboss/spec/jsr373/apiexample/resource/Attribute.java:129-138 | succeeds exactly when the attribute's own type is a collection and the value type is simple; otherwise fails with "collections only" or "nested collection"; on success only the value type changes |
| Attributes.Draft.Build | src/main/java/org/jboss/spec/jsr373/apiexample/resource/Attribute.java:140-154 | succeeds exactly when a collection has a value type and a child-holding attribute is non-nillable and URL-valued; names the error of the first failing check, and on success carries every builder field into the attribute |
| Attributes.SettersKeepConsistent | src/main/java/org/jboss/spec/jsr373/apiexample/resource/Attribute.java:112-138 | every setter keeps the builder's invariant (a value type only on a collection, and only a simple one) |
| Attributes.BuildWellFormed | src/main/java/org/jboss/spec/jsr373/apiexample/resource/Attribute.java:140-154 | every attribute `build` returns is well formed |
| Attributes.FreshBuilder | src/main/java/org/jboss/spec/jsr373/apiexample/resource/Attribute.java:59-61 | a fresh builder is non-nillable, READ_ONLY, handles no classes, and builds exactly when its type is simple |
| Attributes.AddHandledIdempotent | src/main/java/org/jboss/spec/jsr373/apiexample/resource/Attribute.java:122-127 | adding handled classes is set union: repeating it, or adding a class already present, changes nothing |
| Attributes.AttributeBuilder.constructor | src/main/java/org/jboss/spec/jsr373/apiexample/resource/Attribute.java:106-110 | the builder starts in the state `createBuilder` describes |
| Attributes.AttributeBuilder.SetNillable | src/main/java/org/jboss/spec/jsr373/apiexample/resource/Attribute.java:112-115 | the builder's state becomes the draft with `nillable` set |
| Attributes.AttributeBuilder.SetAccess | src/main/java/org/jboss/spec/jsr373/apiexample/resource/Attribute.java:117-120 | the builder's state becomes the draft with the given access |
| Attributes.AttributeBuilder.AddHandledChildTypes | src/main/java/org/jboss/spec/jsr373/apiexample/resource/Attribute.java:122-127 | the loop adds each given class to the handled set, ending in the draft's union |
| Attributes.AttributeBuilder.SetValueType | src/main/java/org/jboss/spec/jsr373/apiexample/resource/Attribute.java:129-138 | on success the state becomes the draft's; on failure the state is unchanged and the draft's error is returned |
| Attributes.AttributeBuilder.Build | src/main/java/org/jboss/spec/jsr373/apiexample/resource/Attribute.java:140-154 | returns what the draft's `Build` returns |
| Attributes.ToModelNode | src/main/java/org/jboss/spec/jsr373/apiexample/resource/Attribute.java:75-91 | succeeds exactly when every handled class is registered. `value-type` is present iff the type is not simple and `allowed-types` iff some class is handled; `allowed-types` holds the registered singletons. Otherwise fails naming an unregistered handled class |
| AttributeTypes.SimpleIffNotCollection | src/main/java/org/jboss/spec/jsr373/apiexample/resource/AttributeType.java:29-47 | a tag is not simple exactly when it is LIST or MAP; URL and STRING are simple |
| AttributeTypes.TagUniverse | src/main/java/org/jboss/spec/jsr373/apiexample/resource/AttributeType.java:28-37 | the nine listed tags are distinct and are every tag except the added DATE; tag names are distinct |
| Collections.LinkedAddProperties | src/main/java/org/jboss/spec/jsr373/apiexample/resource/objects/ManagedObjectType.java:130-134 | adding to an insertion-ordered set keeps it duplicate-free, adds exactly the element, and keeps the old order as a prefix |
| Collections.PutProperties | src/main/java/org/jboss/spec/jsr373/apiexample/resource/ResourceInstance.java:146-149 | a put into an insertion-ordered map stores the value under its key and leaves other keys alone. Old keys keep their order, and replacing a key keeps the key order |
| Kinds.AncestorChain | src/main/java/org/jboss/spec/jsr373/apiexample/resource/ResourceTemplate.java:182-195 | the chain starts at the class, ends at ManagedObjectType, and each step is the superclass of the one before |
| Kinds.Instance | src/main/java/org/jboss/spec/jsr373/apiexample/resource/objects/DomainType.java:44-46 | each singleton describes its own class (names, descriptions and root names of the shown kinds) |
| Kinds.LowerAscii | src/main/java/org/jboss/spec/jsr373/apiexample/UrlUtil.java:76 | lower-casing maps exactly the ASCII capitals and keeps the length |
| Kinds.CollectParents | src/main/java/org/jboss/spec/jsr373/apiexample/resource/objects/ManagedObjectType.java:130-134 | the loop yields a duplicate-free sequence with the same elements as the arguments, equal to `ParentSet` |
| Kinds.ParentSetProperties | src/main/java/org/jboss/spec/jsr373/apiexample/resource/objects/ManagedObjectType.java:130-134 | `parents(...)` drops duplicates, keeps every argument, and orders elements by their first occurrence |
| Kinds.ParentSetOfDistinct | src/main/java/org/jboss/spec/jsr373/apiexample/resource/objects/ManagedObjectType.java:130-134 | for distinct arguments `parents(...)` is the argument list itself |
| Kinds.FirstIndex | src/main/java/org/jboss/spec/jsr373/apiexample/resource/objects/ManagedObjectType.java:130-134 | the position of an element's first occurrence |
| Kinds.ShownParentSets | src/main/java/org/jboss/spec/jsr373/apiexample/resource/objects/DomainType.java:48-51 | the parent sets: Domain {Null}, Server {Null, Domain}, Jvm {Server, AppClientModule, EJBModule, WebModule}; deployed objects {Server, Application}; WebModule the inherited set; Jvm's URI-template parents {Server} |
| Kinds.ParentSetsDistinct | src/main/java/org/jboss/spec/jsr373/apiexample/resource/objects/JvmType.java:50-57 | every parent set and URI-template parent set is duplicate-free |
| Kinds.RootKinds | src/main/java/org/jboss/spec/jsr373/apiexample/resource/objects/DomainType.java:44-51 | Domain's only parent is NullType, so only a NullType template can be a valid parent of a Domain, and its root name is "domains". Server allows a null parent or a Domain. The Jvm template does not allow a null parent and has no root name |
| Kinds.UriTemplateParentsAreParents | src/main/java/org/jboss/spec/jsr373/apiexample/resource/objects/ManagedObjectType.java:78-80 | URI-template parents are parents; they equal the parents except for Jvm, where they are a proper subset |
| Kinds.ToInt32 | src/main/java/org/jboss/spec/jsr373/apiexample/resource/objects/ManagedObjectType.java:136-139 | 32-bit wrap-around: the result is in int range and congruent to the input modulo 2^32 |
| Kinds.EqualsIsIdentity | src/main/java/org/jboss/spec/jsr373/apiexample/resource/objects/ManagedObjectType.java:142-150 | two singletons are equal by name exactly when they are the same kind |
| Kinds.NamesDistinct | src/main/java/org/jboss/spec/jsr373/apiexample/resource/objects/ManagedObjectType.java:142-150 | distinct kinds have distinct names |
| Kinds.HashAgreesWithEquals | src/main/java/org/jboss/spec/jsr373/apiexample/resource/objects/ManagedObjectType.java:136-150 | equal kinds have equal hash codes, and every hash is a 32-bit int |
| KindRegistry.GetInstanceForClass | src/main/java/org/jboss/spec/jsr373/apiexample/resource/objects/ManagedObjectTypeRegistry.java:53-59 | succeeds exactly for a registered class, returning its singleton; otherwise fails naming the class |
| KindRegistry.Registry.AddType | src/main/java/org/jboss/spec/jsr373/apiexample/resource/objects/ManagedObjectTypeRegistry.java:49-51 | the singleton is stored under its own class, overwriting any earlier entry |
| KindRegistry.Registry.InitialiseInstances | src/main/java/org/jboss/spec/jsr373/apiexample/resource/objects/ManagedObjectTypeRegistry.java:37-47 | the registry holds exactly Domain, Null, Server, Jvm, Application and AppClientModule, each mapped to itself |
| KindRegistry.Registry.InitialiseAllInstances | src/main/java/org/jboss/spec/jsr373/apiexample/resource/objects/ManagedObjectTypeRegistry.java:37-47 | the corrected registry holds every concrete class, each mapped to itself |
| KindRegistry.InitialisedLookup | src/main/java/org/jboss/spec/jsr373/apiexample/resource/objects/ManagedObjectTypeRegistry.java:37-59 | in the initialised registry a registered class yields its own singleton and any other class fails |
| KindRegistry.AddTypeLookup | src/main/java/org/jboss/spec/jsr373/apiexample/resource/objects/ManagedObjectTypeRegistry.java:49-51 | after `addType` the added class yields its singleton and every other lookup is unchanged |
| KindSchemas.BuilderChains | src/main/java/org/jboss/spec/jsr373/apiexample/resource/objects/DomainType.java:57-61 | the builder chains the kinds use produce the plain, nillable and URL-list attributes, and the URL lists are well formed |
| KindSchemas.BaseSchemaShape | src/main/java/org/jboss/spec/jsr373/apiexample/resource/objects/ManagedObjectType.java:90-114 | the base attributes are, in order, name, state-manageable, statistics-provider and event-provider (required), then state and start-time (nillable); none holds children |
| KindSchemas.SchemaWellFormed | src/main/java/org/jboss/spec/jsr373/apiexample/resource/objects/ManagedObjectType.java:90-114 | every attribute each kind describes builds successfully |
| KindSchemas.OwnSchemaWellFormed | src/main/java/org/jboss/spec/jsr373/apiexample/resource/objects/ServerType.java:52-71 | every attribute a kind adds to the base builds successfully |
| KindSchemas.DomainAndServerSchemas | src/main/java/org/jboss/spec/jsr373/apiexample/resource/objects/ServerType.java:52-71 | Domain adds `servers` holding Servers; Server adds serverVendor, serverVersion, `javaVMs` holding Jvms and `deployedObjects` holding the four deployed kinds, with disjoint handled sets |
| KindSchemas.JvmSchema | src/main/java/org/jboss/spec/jsr373/apiexample/resource/objects/JvmType.java:60-71 | Jvm adds required STRING attributes java-vendor, java-version and node, none holding children |
| KindSchemas.WebModuleSchema | src/main/java/org/jboss/spec/jsr373/apiexample/resource/objects/WebModuleType.java:51-59 | WebModule adds the deployed-object attribute, then `servlets` holding Servlets, after the inherited ones |
| KindSchemas.SchemaHandlesConcreteOnly | src/main/java/org/jboss/spec/jsr373/apiexample/resource/objects/ServerType.java:61-70 | every class a described attribute holds is concrete |
| KindSchemas.AddAllValid | src/main/java/org/jboss/spec/jsr373/apiexample/resource/ResourceTemplate.java:208-214 | adding a kind's attributes keeps the template builder's maps valid |
| KindSchemas.AddAllChildren | src/main/java/org/jboss/spec/jsr373/apiexample/resource/ResourceTemplate.java:208-223 | the builder's children map after adding attributes is the one built from their handled sets |
| KindSchemas.ChildrenFromAppend | src/main/java/org/jboss/spec/jsr373/apiexample/resource/ResourceTemplate.java:208-223 | building the children map over two lists in turn equals building it over their concatenation |
| KindSchemas.ChildrenFromNone | src/main/java/org/jboss/spec/jsr373/apiexample/resource/ResourceTemplate.java:208-223 | attributes that hold no children leave the children map alone |
| KindSchemas.ChildrenFromSnoc | src/main/java/org/jboss/spec/jsr373/apiexample/resource/ResourceTemplate.java:208-223 | one more attribute records its handled set under its name, if it has one |
| KindSchemas.SchemaChildren | src/main/java/org/jboss/spec/jsr373/apiexample/resource/ResourceTemplate.java:208-223 | each kind's compiled children map is its own `OwnChildren` table |
| KindSchemas.OwnChildrenUnambiguous | src/main/java/org/jboss/spec/jsr373/apiexample/resource/objects/ServerType.java:61-70 | no class is held by two attributes of any kind, so compilation never hits "Ambiguous entry" |
| KindSchemas.AddAttributes | src/main/java/org/jboss/spec/jsr373/apiexample/resource/ResourceTemplate.java:208-214 | the builder ends in the state of adding each attribute in order |
| KindSchemas.AddAttributeDescriptions | src/main/java/org/jboss/spec/jsr373/apiexample/resource/objects/ManagedObjectType.java:90-114 | each kind's hook adds its schema, base attributes first, to the builder |
| KindSchemas.BaseDefaultsCover | src/main/java/org/jboss/spec/jsr373/apiexample/resource/objects/ManagedObjectType.java:116-121 | the base defaults set exactly the required base attributes |
| KindSchemas.OwnDefaultsCover | src/main/java/org/jboss/spec/jsr373/apiexample/resource/objects/ServerType.java:73-77 | every kind's own defaults cover its required own attributes |
| KindSchemas.DefaultsFailOnlyForJvm | src/main/java/org/jboss/spec/jsr373/apiexample/resource/objects/JvmType.java:73-82 | setting defaults fails exactly for a Jvm whose host name cannot be resolved |
| KindSchemas.DefaultsCoverRequired | src/main/java/org/jboss/spec/jsr373/apiexample/resource/objects/ManagedObjectType.java:116-121 | whenever defaults succeed they cover every required non-child attribute of the kind |
| KindSchemas.ShownDefaults | src/main/java/org/jboss/spec/jsr373/apiexample/resource/objects/ServerType.java:73-77 | Server defaults end with serverVendor "Server Co" and serverVersion "3.7.3"; Jvm's java-version is "java.version"; Domain has only the base defaults |
| Templates.AddAttributeSpec | src/main/java/org/jboss/spec/jsr373/apiexample/resource/ResourceTemplate.java:208-223 | `addAttribute` stores the attribute under its name, replacing any earlier one, and records its handled classes under that name. Other names are untouched, and a replacement keeps the key order |
| Templates.ReplacementKeepsChildren | src/main/java/org/jboss/spec/jsr373/apiexample/resource/ResourceTemplate.java:208-223 | replacing a child-holding attribute by one holding none leaves the old children entry in place |
| Templates.TemplateBuilder.constructor | src/main/java/org/jboss/spec/jsr373/apiexample/resource/ResourceTemplate.java:203-206 | a new template builder is empty and valid |
| Templates.TemplateBuilder.AddAttribute | src/main/java/org/jboss/spec/jsr373/apiexample/resource/ResourceTemplate.java:208-214 | the builder's state becomes the draft after `addAttribute` |
| Templates.TemplateBuilder.CreateChildType | src/main/java/org/jboss/spec/jsr373/apiexample/resource/ResourceTemplate.java:216-223 | only the children entry for the name changes |
| Templates.InvertChildren | src/main/java/org/jboss/spec/jsr373/apiexample/resource/ResourceTemplate.java:59-72 | succeeds exactly when no class is held by two attributes, returning the class → attribute inversion; otherwise fails naming a class held twice |
| Templates.InversionUnique | src/main/java/org/jboss/spec/jsr373/apiexample/resource/ResourceTemplate.java:65-72 | in an inversion every held class maps back to the attribute holding it |
| Templates.ValidParentIffListed | src/main/java/org/jboss/spec/jsr373/apiexample/resource/ResourceTemplate.java:178-180 | a template is a valid parent exactly when its kind is in the parent set |
| Templates.DomainParentIsNull | src/main/java/org/jboss/spec/jsr373/apiexample/resource/objects/DomainType.java:48-51 | a template is a valid parent of a Domain exactly when it is a NullType template |
| Templates.FirstInSpec | src/main/java/org/jboss/spec/jsr373/apiexample/resource/ResourceTemplate.java:182-195 | the lookup finds nothing exactly when no class on the chain is mapped, and otherwise the first mapped one |
| Templates.FirstMappedAlongChain | src/main/java/org/jboss/spec/jsr373/apiexample/resource/ResourceTemplate.java:182-195 | the superclass walk equals the lookup along `AncestorChain` |
| Templates.GetAttributeForChildType | src/main/java/org/jboss/spec/jsr373/apiexample/resource/ResourceTemplate.java:182-195 | the while loop returns the first mapping along the ancestor chain, or fails at its top |
| Templates.WithoutNull | src/main/java/org/jboss/spec/jsr373/apiexample/resource/ResourceTemplate.java:139-150 | the parents listed are the parents except NullType |
| Templates.ParentsDocumentSpec | src/main/java/org/jboss/spec/jsr373/apiexample/resource/ResourceTemplate.java:139-150 | `allow-null-parent` holds iff NullType is a parent; NullType is never listed, every other parent is; the Domain and Server parent documents |
| TemplateCatalog.SerializeTemplate | src/main/java/org/jboss/spec/jsr373/apiexample/resource/ResourceTemplate.java:115-157 | succeeds exactly when every handled class is registered. The document then has the template URL, kind name, path, description and parents, and one entry per attribute in order. Otherwise fails naming an unregistered handled class |
| TemplateCatalog.Compile | src/main/java/org/jboss/spec/jsr373/apiexample/resource/ResourceTemplate.java:59-81 | the compiled template holds the kind's schema, its children map and its inversion, and the template URL |
| TemplateCatalog.Catalog.SetTemplate | src/main/java/org/jboss/spec/jsr373/apiexample/resource/objects/ManagedObjectType.java:123-128 | setting a kind's template succeeds exactly while none is set; a second call fails and changes nothing |
| TemplateCatalog.Catalog.CreateTemplate | src/main/java/org/jboss/spec/jsr373/apiexample/resource/ResourceTemplate.java:78-84 | succeeds exactly for a kind without a template, recording it on the kind and appending it to the list; otherwise changes nothing |
| TemplateCatalog.Catalog.Record | src/main/java/org/jboss/spec/jsr373/apiexample/resource/ResourceTemplate.java:74-82 | the template is appended to the list only after the kind accepted it |
| TemplateCatalog.Catalog.SerializeTemplates | src/main/java/org/jboss/spec/jsr373/apiexample/resource/ResourceTemplate.java:97-101 | writes the templates in creation order; succeeds exactly when each can be written |
| TemplateCatalog.RecordKeepsValid | src/main/java/org/jboss/spec/jsr373/apiexample/resource/ResourceTemplate.java:78-84 | recording a template for a new kind keeps the list one-per-kind and in step with the kinds' slots |
| TemplateCatalog.CompiledFromSchema | src/main/java/org/jboss/spec/jsr373/apiexample/resource/objects/ManagedObjectType.java:90-114 | every attribute of a compiled template is one of its kind's descriptions |
| TemplateCatalog.CompiledWellFormed | src/main/java/org/jboss/spec/jsr373/apiexample/resource/ResourceTemplate.java:59-81 | a compiled template is well formed |
| TemplateCatalog.LastOwnAttributeHeld | src/main/java/org/jboss/spec/jsr373/apiexample/resource/ResourceTemplate.java:208-214 | the last attribute a kind adds is held under its name |
| TemplateCatalog.ServerAndWebModuleNotSerializable | src/main/java/org/jboss/spec/jsr373/apiexample/resource/objects/ManagedObjectTypeRegistry.java:37-47 | with the registry as initialised, the Server and WebModule templates cannot be written |
| TemplateCatalog.RegisteredSerializable | src/main/java/org/jboss/spec/jsr373/apiexample/resource/Attribute.java:84-89 | with the registry as initialised, a template can be written exactly when its kind is neither Server nor WebModule |
| TemplateCatalog.CompleteRegistrySerializable | src/main/java/org/jboss/spec/jsr373/apiexample/resource/objects/ManagedObjectTypeRegistry.java:37-47 | with every concrete class registered, every compiled template can be written |
| Urls.ServletRoot | src/main/java/org/jboss/spec/jsr373/apiexample/UrlUtil.java:57-69 | the root is the configured property or the default, unchanged (the trailing-slash strip has no effect); it is accepted exactly when it is non-empty and parses as a URL, and is then non-empty; otherwise initialisation fails with BadServletRoot naming the string |
| Urls.ServletRootCases | src/main/java/org/jboss/spec/jsr373/apiexample/UrlUtil.java:57-69 | an unset property gives the default root, an empty property fails, and a configured root ending in '/' keeps its slash |
| Urls.AppendUrl | src/main/java/org/jboss/spec/jsr373/apiexample/UrlUtil.java:90-102 | the loop yields the base followed by each element with one '/' before it, except the first element when the base ends in '/' |
| Urls.JoinedSnoc | src/main/java/org/jboss/spec/jsr373/apiexample/UrlUtil.java:90-102 | appending one more element adds "/" and the element (no slash for the first element after a trailing '/') |
| Urls.TemplateUrlShape | src/main/java/org/jboss/spec/jsr373/apiexample/UrlUtil.java:74-77 | the template URL is the root, one '/', "templates/" and the lower-cased kind name |
| Urls.InstanceUrlShape | src/main/java/org/jboss/spec/jsr373/apiexample/UrlUtil.java:79-83 | the instance URL is the parent URL (or root), one '/', the kind path, '/' and the unescaped name |
| Urls.LastIndexOf | src/main/java/org/jboss/spec/jsr373/apiexample/UrlUtil.java:207-208 | finds the last occurrence of the character, or none when it is absent |
| Urls.ParentUrl | src/main/java/org/jboss/spec/jsr373/apiexample/UrlUtil.java:207-208 | a URL without '/' fails; otherwise the result is the prefix before the last '/' |
| Urls.ChildListingOkIff | src/main/java/org/jboss/spec/jsr373/apiexample/UrlUtil.java:203-216 | the listing succeeds exactly when every stored URL contains '/' |
| Urls.ChildUrlsMembers | src/main/java/org/jboss/spec/jsr373/apiexample/UrlUtil.java:203-216 | the listed URLs are exactly the stored ones whose parent is the request, and none when no URL has that parent |
| Urls.ChildListingValues | src/main/java/org/jboss/spec/jsr373/apiexample/UrlUtil.java:203-216 | the listing holds the stored documents of those URLs, in registration order |
| Urls.WriteThenRead | src/main/java/org/jboss/spec/jsr373/apiexample/UrlUtil.java:186-202 | after a writer for a URL closes, reading that URL returns what was written |
| Urls.EmptyListingOnMiss | src/main/java/org/jboss/spec/jsr373/apiexample/UrlUtil.java:203-217 | a miss with no child yields an empty list, never null |
| Urls.ServletUrlRegistry.constructor | src/main/java/org/jboss/spec/jsr373/apiexample/UrlUtil.java:183-184 | the registry starts empty |
| Urls.ServletUrlRegistry.Close | src/main/java/org/jboss/spec/jsr373/apiexample/UrlUtil.java:186-197 | closing stores the content under its URL, overwriting earlier content |
| Urls.ServletUrlRegistry.GetReader | src/main/java/org/jboss/spec/jsr373/apiexample/UrlUtil.java:200-218 | the loop yields the exact document or the ordered child listing |
| Urls.ListingStaysFailed | src/main/java/org/jboss/spec/jsr373/apiexample/UrlUtil.java:203-216 | once a stored URL without '/' is met the listing fails and stays failed |
| Instances.GroupNames | src/main/java/org/jboss/spec/jsr373/apiexample/resource/ResourceInstance.java:118-126 | the attribute names of the child groups, in order |
| Instances.AddToGroupNew | src/main/java/org/jboss/spec/jsr373/apiexample/resource/ResourceInstance.java:118-126 | adding under a new attribute appends a group holding just the child |
| Instances.AddToGroupAt | src/main/java/org/jboss/spec/jsr373/apiexample/resource/ResourceInstance.java:118-126 | adding under an existing attribute appends the child to that group only |
| Instances.AddToGroupNames | src/main/java/org/jboss/spec/jsr373/apiexample/resource/ResourceInstance.java:118-126 | adding keeps group names distinct and adds the name only when it is new |
| Instances.AddToGroupMember | src/main/java/org/jboss/spec/jsr373/apiexample/resource/ResourceInstance.java:118-126 | after adding, every member is an old member at its old place or the added child |
| Instances.ValidateAttributeValue | src/main/java/org/jboss/spec/jsr373/apiexample/resource/ResourceInstance.java:226-247 | the loops over list and map elements give the value check's verdict |
| Instances.ItemsFromPassIff | src/main/java/org/jboss/spec/jsr373/apiexample/resource/ResourceInstance.java:233-243 | the element loop passes exactly when every element passes the simple check |
| Instances.ValueCheckPassIff | src/main/java/org/jboss/spec/jsr373/apiexample/resource/ResourceInstance.java:226-247 | a simple value passes its simple check; a LIST value must be a list and a MAP value an object, with every element valid for the value type |
| Instances.SimpleCheckSpec | src/main/java/org/jboss/spec/jsr373/apiexample/resource/ResourceInstance.java:249-277 | DATE and collection tags fail as unknown. STRING and DOUBLE values must convert. A URL must convert to a string and parse, and failing to parse gives the invalid-URL error |
| Instances.CheckBuilder | src/main/java/org/jboss/spec/jsr373/apiexample/resource/ResourceInstance.java:178-213 | the build checks' loops give the verdict of the check on the builder |
| Instances.FirstUnknownSpec | src/main/java/org/jboss/spec/jsr373/apiexample/resource/ResourceInstance.java:179-190 | finds no name exactly when every name is known, and otherwise an unknown one |
| Instances.EntriesFromPassIff | src/main/java/org/jboss/spec/jsr373/apiexample/resource/ResourceInstance.java:192-213 | the loop over template attributes passes exactly when each passes |
| Instances.EntryCheckPassIff | src/main/java/org/jboss/spec/jsr373/apiexample/resource/ResourceInstance.java:192-213 | an attribute passes exactly when it is set and valid, or unset and children-backed or nillable |
| Instances.EntriesPassIff | src/main/java/org/jboss/spec/jsr373/apiexample/resource/ResourceInstance.java:192-213 | every template attribute is acceptable exactly when the loop passes |
| Instances.CheckNodePassIff | src/main/java/org/jboss/spec/jsr373/apiexample/resource/ResourceInstance.java:176-213 | a builder passes exactly when every set and child name is known and every template attribute is acceptable |
| Instances.MissingRequiredFails | src/main/java/org/jboss/spec/jsr373/apiexample/resource/ResourceInstance.java:192-211 | a required attribute that is unset and has no children makes the build fail |
| Instances.PutAllValid | src/main/java/org/jboss/spec/jsr373/apiexample/resource/ResourceInstance.java:137-144 | applying defaults keeps the attribute map valid |
| Instances.PutAllKeys | src/main/java/org/jboss/spec/jsr373/apiexample/resource/ResourceInstance.java:137-144 | after defaults the keys are the old ones plus the defaulted names |
| Instances.FreshNodeFails | src/main/java/org/jboss/spec/jsr373/apiexample/resource/ResourceInstance.java:137-144 | creating a builder fails exactly for a Jvm whose host name is unknown |
| Instances.JvmRootBuilderAccepted | src/main/java/org/jboss/spec/jsr373/apiexample/resource/ResourceInstance.java:63-66 | `createRootBuilder` does not consult the parent set: a Jvm template, which does not allow a null parent, still yields a parentless builder whenever the host has a name |
| Instances.FreshNodeCoversRequired | src/main/java/org/jboss/spec/jsr373/apiexample/resource/ResourceInstance.java:137-144 | a new builder already holds every required non-child attribute of its kind |
| Instances.ServerWithOnlyJvmsFails | src/main/java/org/jboss/spec/jsr373/apiexample/resource/objects/ServerType.java:66-77 | a new Server builder whose child groups are all `javaVMs` fails the build check, since `deployedObjects` is required, has no default and is not backed by children |
| Instances.AddChildKeepsLinked | src/main/java/org/jboss/spec/jsr373/apiexample/resource/ResourceInstance.java:151-166 | adding a child under the attribute its kind maps to keeps the forest's parent and child links consistent |
| Instances.BuilderForest.constructor | src/main/java/org/jboss/spec/jsr373/apiexample/resource/ResourceInstance.java:63-66 | the forest starts empty |
| Instances.BuilderForest.NewBuilder | src/main/java/org/jboss/spec/jsr373/apiexample/resource/ResourceInstance.java:137-144 | the new builder has the URL under its parent (or root) and the kind's defaults |
| Instances.BuilderForest.CreateRootBuilder | src/main/java/org/jboss/spec/jsr373/apiexample/resource/ResourceInstance.java:63-66 | appends a parentless builder, failing only when its defaults fail |
| Instances.BuilderForest.SetAttribute | src/main/java/org/jboss/spec/jsr373/apiexample/resource/ResourceInstance.java:146-149 | only that builder's attribute map changes, by a put |
| Instances.BuilderForest.CreateChildBuilder | src/main/java/org/jboss/spec/jsr373/apiexample/resource/ResourceInstance.java:151-166 | fails with "Bad child type" unless the parent is valid for the child's template, then fails if defaults or the attribute lookup fail. On success appends the builder and adds it to the parent's group for that attribute |
| Instances.BuilderForest.BuildInternal | src/main/java/org/jboss/spec/jsr373/apiexample/resource/ResourceInstance.java:176-224 | builds the subtree described by `BuiltTree` |
| Instances.BuilderForest.BuildChildren | src/main/java/org/jboss/spec/jsr373/apiexample/resource/ResourceInstance.java:218-222 | builds the child groups in order |
| Instances.BuilderForest.BuildGroupMembers | src/main/java/org/jboss/spec/jsr373/apiexample/resource/ResourceInstance.java:218-222 | builds a group's members in order |
| Instances.BuilderForest.Build | src/main/java/org/jboss/spec/jsr373/apiexample/resource/ResourceInstance.java:169-174 | fails with NotRoot for a builder with a parent; otherwise returns the built tree or its error |
| Instances.ParentUrlOf | src/main/java/org/jboss/spec/jsr373/apiexample/resource/ResourceInstance.java:214 | an instance's parent URL is its parent builder's URL, and parents come earlier in the forest |
| Instances.BuiltTreeMirrors | src/main/java/org/jboss/spec/jsr373/apiexample/resource/ResourceInstance.java:214-222 | a built instance has its builder's URL, template, name, attributes and parent, and mirrors its groups; each member is the child built under its own attribute |
| Instances.BuiltTreeOkIff | src/main/java/org/jboss/spec/jsr373/apiexample/resource/ResourceInstance.java:176-224 | building succeeds exactly when the builder's checks pass and every child builds; a failed check is the error |
| Instances.ChildLinks | src/main/java/org/jboss/spec/jsr373/apiexample/resource/ResourceInstance.java:88-95 | one link per child, in order, with `rel` the child's template URL and `href` the child's URL |
| Instances.PutValuesGet | src/main/java/org/jboss/spec/jsr373/apiexample/resource/ResourceInstance.java:84-86 | every attribute is written under its name |
| Instances.PutGroupsAt | src/main/java/org/jboss/spec/jsr373/apiexample/resource/ResourceInstance.java:88-96 | every group is written as its list of child links |
| Instances.PutGroupsOther | src/main/java/org/jboss/spec/jsr373/apiexample/resource/ResourceInstance.java:88-96 | writing groups leaves other keys alone |
| Instances.DocumentEntries | src/main/java/org/jboss/spec/jsr373/apiexample/resource/ResourceInstance.java:79-96 | the document holds the links, each attribute and each child list, and nothing else |
| Instances.LinkList | src/main/java/org/jboss/spec/jsr373/apiexample/resource/ResourceInstance.java:88-95 | the loop yields the group's child links |
| Instances.WriteDocument | src/main/java/org/jboss/spec/jsr373/apiexample/resource/ResourceInstance.java:79-96 | the loops yield the instance's document |
| Instances.BuiltSerializable | src/main/java/org/jboss/spec/jsr373/apiexample/resource/ResourceInstance.java:214-222 | every built tree can be serialized |
| Instances.MembersContain | src/main/java/org/jboss/spec/jsr373/apiexample/resource/ResourceInstance.java:104-108 | a member's documents are among its group's output |
| Instances.GroupsContain | src/main/java/org/jboss/spec/jsr373/apiexample/resource/ResourceInstance.java:104-108 | a member's documents are among the groups' output |
| Instances.LinksResolve | src/main/java/org/jboss/spec/jsr373/apiexample/resource/ResourceInstance.java:79-109 | the first document is the instance's own. Every child is written, and each child link's `href` names a written document that is that child's |
| Instances.InternalSerialize | src/main/java/org/jboss/spec/jsr373/apiexample/resource/ResourceInstance.java:79-109 | writes the instance's document, then each child's subtree in group order |
| Instances.SerializeMembers | src/main/java/org/jboss/spec/jsr373/apiexample/resource/ResourceInstance.java:104-108 | writes a group's members' subtrees in order |
| Instances.Serialize | src/main/java/org/jboss/spec/jsr373/apiexample/resource/ResourceInstance.java:72-77 | fails exactly for an instance with a parent; otherwise returns every document of the tree |

## Findings

| source | as written | input that shows it | evidently intended | confidence | as-written member | corrected member |
|---|---|---|---|---|---|---|
| src/main/java/org/jboss/spec/jsr373/apiexample/resource/objects/ManagedObjectTypeRegistry.java:37-47 | the registry holds only Domain, Null, Server, Jvm, Application and AppClientModule, yet the Server and WebModule attributes hold WebModule, EJBModule and Servlet, which `toModelNode` looks up | writing the compiled Server template: `deployedObjects` holds WebModule, which is not registered | every concrete kind is registered, so every template can be written | medium, not executed | TemplateCatalog.ServerAndWebModuleNotSerializable | TemplateCatalog.CompleteRegistrySerializable |

## Left out

- File I/O. The file writes in `ResourceTemplate.serialize` and `ResourceInstance.internalSerialize` are left out, and so is the whole filesystem `UrlUtil` (directories, `createFileInstance`). Documents are Dafny data, and the JSON text is not produced.
- `ModelNode` coercions (`asBoolean`, `asInt`, ...) and the `java.net.URL` parsing of `validateSimpleValue` are parameters (`Coercions`). The environment values of the JVM defaults (vendor, host name) are the `Environment` parameter.
- Urls.ServletRoot: whether `new URL` accepts the servlet root is the `isUrl` parameter, and an accepted root is taken to be its own external form.
- Urls.AppendUrl: the final `new URL(...)` of `appendURL` is assumed to accept the joined string, and a URL's `toExternalForm` is taken to be the string it was made from. A template or instance URL that `new URL` rejected would throw in the source.
- The servlet request handling and the `synchronized` blocks of `ServletUrlRegistry` are left out: the model is single-threaded.
- `ExampleGenerator` is left out. It only wires templates and calls builder methods that the modelled `ResourceInstance` lacks.
- `createTemplatex` is left out: it is unused and would call `setTemplate` twice. `ResourceTemplate.equals`/`hashCode` are left out: they compare a template with a kind.
- Reflection over the class hierarchy is replaced by the explicit `Kinds.Superclass` table.
- NullType, ApplicationType, AppClientModuleType, EJBModuleType, ServletType and ModuleType are not part of this model. What follows is assumed about them. Their names are stand-ins, their descriptions are empty and none has a root name.
  - Superclasses (`Kinds.Superclass`): NullType and ServletType extend ManagedObjectType. ApplicationType extends DeployedObjectType. ModuleType extends DeployedObjectType, and AppClientModuleType and EJBModuleType extend ModuleType, as WebModuleType does.
  - Parent sets (`Kinds.Parents`): NullType has none. ServletType has {WebModule}. ApplicationType, AppClientModuleType and EJBModuleType inherit DeployedObjectType's {Server, Application}, and ModuleType adds nothing to it.
  - Attributes (`KindSchemas.OwnSchema`): NullType and ServletType add none to the base ones. ApplicationType, AppClientModuleType and EJBModuleType add only DeployedObjectType's `deployment-descriptor`.
  - Defaults (`KindSchemas.OwnDefaults`): NullType and ServletType add none. The other three add only DeployedObjectType's `deployment-descriptor` default.
  - Consequences: these assumptions decide `IsValidParent` for Servlet and Null templates and how far the ancestor walk goes. The Servlet half of `CompleteRegistrySerializable` (that Servlet is a concrete class) rests on them too.
- `Util.addTypeLinkToMap` is not part of this model; an `allowed-types` entry is the registered singleton.
- HashMap iteration order. The template's children map and the inversion are maps with no order. The ordered structures (LinkedHashMap, LinkedHashSet) are ordered sequences.
- Instances.BuilderForest: builders and instances are an arena of values rather than objects. The aliasing between a builder's attribute map and its built instance is not modelled.
- Instances.BuilderForest.BuildInternal: the source adds a child to its parent before building the child's own children. The model adds the finished child. The result is the same tree, and a failure anywhere discards the whole build either way.
- Instances.Serialize, TemplateCatalog.Catalog.SerializeTemplates: they require that the tree or template is well formed (`Serializable`, `TemplateWellFormed`), which every built tree and compiled template is (`BuiltSerializable`, `CompiledWellFormed`).
- The "Ambiguous entry" failure cannot occur for the modelled kinds (`OwnChildrenUnambiguous`); it is modelled in `InvertChildren` but unreachable from `Compile`.
- The unknown-type branch for a simple attribute type cannot be reached, because a well-formed attribute's value type is simple. Only the DATE tag reaches the unknown-type failure, through `validateSimpleValue`.
- Lower-casing covers ASCII letters only.
- Kinds.HashCode: `StringHashCode` runs over Dafny characters (Unicode scalar values), while Java hashes UTF-16 code units. The two agree on strings within the Basic Multilingual Plane, which every kind name is. `HashAgreesWithEquals` holds by construction, since equality is kind identity.
- Urls.ServletUrlRegistry.GetReader: stored URLs and requests are compared as external-form strings, not with `java.net.URL.equals`. That method ignores host case, treats a default port as equal to an explicit one, and compares resolved host addresses. So a request that differs from a stored URL only in those respects gets the child listing in the model, where the source returns the stored document. Close's overwrite uses the same string comparison.
