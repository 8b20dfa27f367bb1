# runtime-framework nullness weaver, modelled in Dafny

runtime-framework is a Java agent. It rewrites classes as they are loaded so
that null values are caught where checked code meets unchecked code. This
project models its core:

- **Qualifier registry.** `TypeSystemConfiguration` maps annotation
  descriptors to ENFORCE or NOOP, and holds a default entry.
- **Class filters.** The filter combinators, the framework safety filter, the
  class-list filter, and the cached `@AnnotatedFor` filter.
- **Decision policy.** `BoundaryStrategy` and `StrictBoundaryStrategy` decide,
  for every kind of program point, which check generator applies, if any.
- **Hierarchy resolver.** It collects the methods a class inherits from
  unchecked ancestors, so that bridges can be written for them.
- **Weaver.**
  - The per-method code transform inserts checks before value-handing
    instructions and after value-bringing ones, and entry checks once.
  - The per-class instrumenter rewrites every method and appends the bridge
    methods in checked scope.
  - The nullness check generator writes the check itself.
- **Load-time classification.** The agent's `premain` builds the policy and
  scan filters. The class-file transformer decides whether a class is skipped,
  woven as checked, or woven as unchecked in global mode.
- **Runtime side.**
  - The swappable global violation handler.
  - `checkNotNull`.
  - The test handler's choice of the blamed stack frame and its
    `[VIOLATION]` line.

Bytecode is modelled abstractly:

- A class is a `ClassModel` value: its name, superclass, flags, annotations,
  fields and methods.
- Code is a sequence of code elements: instructions, line numbers and other
  pseudo-elements.
- A small operand-stack semantics (`OperandStack.Exec`) gives each
  instruction the stack effect the JVM gives it. This is used to prove that an
  inserted check leaves the stack as it found it.
- A class loader's view of the class path is a finite map from internal name
  to class model. An absent, unreadable or unparseable class file is simply
  not in the map.
- A Java `null` is `None`, and a thrown exception is `Raised` in a `Result`.

Where the code updates state in place, the model is a class whose methods
change it, proved against a specification function:

- the configuration registry;
- the `@AnnotatedFor` cache and the transformer's package cache;
- the global handler;
- the code builder the transform appends to, and the class builder.

The loops of the source are methods with loop invariants:

- `toInternalName`;
- the resolver's ancestor walk;
- the override-return walk;
- the annotation flag loops of `shouldGenerateBridge`;
- the parameter loops of `emitParameterChecks` and `emitBridge`;
- the bridge loop of `generateBridgeMethods`.

Decisions without state are functions.

Two source behaviours are modelled as written:

- **An unannotated `package-info` class makes the `@AnnotatedFor` filter
  recurse forever.** The filter tests the package-info class, finds no marker,
  and asks for the package of `pkg/package-info`, which is the same class,
  before anything is cached. The model gives that recursion fuel and returns
  `Diverges`. `AnnotatedForFilter.UnmarkedPackageInfoDiverges` shows this
  happens for every amount of fuel.
- **A bridge checks primitive parameters.** `getBridgeParameterCheck` has no
  type test ahead of the resolution, so under an ENFORCE default a primitive
  parameter gets a check. The bridge then loads that primitive slot with
  `aload`.
  - `BoundaryStrategy.PrimitiveBridgeParameterChecked` states the check is
    given.
  - `EnforcementInstrumenter.PrimitiveBridgeCheckIllTyped` shows the emitted
    code is rejected by the stack semantics.
  - The bridge lemmas that rely on the checks restoring the stack
    (`BridgeParamChecksRestore`, `BridgeCallStack`) require that every checked
    parameter is a reference.

Where the sources disagree with each other, the model takes the form the core
needs:

- **Global mode is an explicit input of the transformer.** The agent
  (`RuntimeAgent.java:84`) calls a four-argument constructor. The transformer
  declares five parameters, including `isGlobalMode`
  (`RuntimeTransformer.java:29-34`).
- **`reportViolation` takes the attribution.** `NullnessRuntimeVerifier`
  calls a three-argument `reportViolation`, but `RuntimeVerifier.java:38`
  declares two arguments and calls the handler's two-argument
  `handleViolation`. The model takes the three-argument form.
  - A handler that keeps the interface's default two-argument method passes
    the report on with LOCAL attribution (`ViolationHandler.java:12-14`).
  - The initial `ThrowingViolationHandler` does not: it overrides the
    two-argument method itself (`ThrowingViolationHandler.java:6-9`), and it
    never implements the abstract three-argument method
    (`ViolationHandler.java:23`). As written it does not satisfy the interface
    it implements. The model treats it as a handler that receives the
    three-argument report.

## Model

| member | source | states |
|---|---|---|
| Configuration.FindEntry | framework/src/main/java/io/github/eisop/runtimeframework/core/TypeSystemConfiguration.java:62-64 | find answers an entry exactly for a registered descriptor, and then the registered one |
| Configuration.TypeSystemConfiguration.constructor | framework/src/main/java/io/github/eisop/runtimeframework/core/TypeSystemConfiguration.java:17-20 | a fresh configuration registers nothing and its default is NOOP with no generator |
| Configuration.TypeSystemConfiguration.OnEnforce | framework/src/main/java/io/github/eisop/runtimeframework/core/TypeSystemConfiguration.java:29-33 | the descriptor maps to ENFORCE with the generator, replacing any earlier entry; other entries and the default are unchanged |
| Configuration.TypeSystemConfiguration.OnNoop | framework/src/main/java/io/github/eisop/runtimeframework/core/TypeSystemConfiguration.java:41-44 | the descriptor maps to NOOP with no generator; other entries and the default are unchanged |
| Configuration.TypeSystemConfiguration.WithDefault | framework/src/main/java/io/github/eisop/runtimeframework/core/TypeSystemConfiguration.java:46-56 | only the default changes; the documented demand that ENFORCE comes with a generator is a precondition |
| Configuration.TypeSystemConfiguration.Find | framework/src/main/java/io/github/eisop/runtimeframework/core/TypeSystemConfiguration.java:58-64 | answers the registry's entry, and null exactly for a descriptor never registered |
| Configuration.TypeSystemConfiguration.GetDefault | framework/src/main/java/io/github/eisop/runtimeframework/core/TypeSystemConfiguration.java:66-68 | answers the current default entry |
| Configuration.RegistrationIsLocal | framework/src/main/java/io/github/eisop/runtimeframework/core/TypeSystemConfiguration.java:29-44 | registering one descriptor leaves the lookup of every other descriptor unchanged |
| Filters.And | framework/src/main/java/io/github/eisop/runtimeframework/filter/Filter.java:8-10 | accepts exactly what both filters accept |
| Filters.Or | framework/src/main/java/io/github/eisop/runtimeframework/filter/Filter.java:12-14 | accepts exactly what either filter accepts |
| Filters.Not | framework/src/main/java/io/github/eisop/runtimeframework/filter/Filter.java:16-18 | accepts exactly what the filter rejects |
| Filters.AcceptAll | framework/src/main/java/io/github/eisop/runtimeframework/filter/Filter.java:20-22 | accepts everything |
| Filters.RejectAll | framework/src/main/java/io/github/eisop/runtimeframework/filter/Filter.java:24-26 | rejects everything |
| Filters.NotNot | framework/src/main/java/io/github/eisop/runtimeframework/filter/Filter.java:16-18 | negating twice agrees with the filter |
| Filters.UnitsAndZeros | framework/src/main/java/io/github/eisop/runtimeframework/filter/Filter.java:8-26 | acceptAll is the unit of and and absorbs or; rejectAll is the unit of or and absorbs and |
| Filters.SafetyTest | framework/src/main/java/io/github/eisop/runtimeframework/filter/FrameworkSafetyFilter.java:6-25 | accepts exactly a named class under none of java/, javax/, sun/, jdk/ and io/github/eisop/ |
| Filters.SafetyRejectionPrefixClosed | framework/src/main/java/io/github/eisop/runtimeframework/filter/FrameworkSafetyFilter.java:12-22 | a rejected name stays rejected however it is extended |
| Filters.ToInternalName | framework/src/main/java/io/github/eisop/runtimeframework/filter/ClassListFilter.java:34-43 | the step-by-step rewrite (trim, strip leading slashes, drop one .class, dots to slashes) yields the normalised name, which has no dot |
| Filters.NewClassListFilter | framework/src/main/java/io/github/eisop/runtimeframework/filter/ClassListFilter.java:19-25 | a null list raises NullPointerException("classNames"); otherwise the allowed set is the normalised non-null entries |
| Filters.AllowedNamesSnoc | framework/src/main/java/io/github/eisop/runtimeframework/filter/ClassListFilter.java:21-24 | one more entry adds its normalised name when it is non-null, and nothing when it is null |
| Filters.ListTest | framework/src/main/java/io/github/eisop/runtimeframework/filter/ClassListFilter.java:27-31 | accepts exactly a named class whose name is allowed |
| Filters.InternalNameIsFixed | framework/src/main/java/io/github/eisop/runtimeframework/filter/ClassListFilter.java:34-43 | a name already in internal form is its own normalisation |
| Filters.ClassFileSpelling | framework/src/main/java/io/github/eisop/runtimeframework/filter/ClassListFilter.java:34-43 | the .class spelling normalises to the internal name |
| Filters.DottedSpelling | framework/src/main/java/io/github/eisop/runtimeframework/filter/ClassListFilter.java:34-43 | the dotted spelling normalises to the internal name |
| Filters.SpellingsAgree | framework/src/main/java/io/github/eisop/runtimeframework/filter/ClassListFilter.java:8-14 | the three documented spellings of a class all name the same internal name |
| AnnotatedForFilter.AnyElementNames | framework/src/main/java/io/github/eisop/runtimeframework/filter/AnnotatedForFilter.java:102-111 | the element loop succeeds exactly when some element is "value" holding an array with the system's string |
| AnnotatedForFilter.AnyAnnotationMarks | framework/src/main/java/io/github/eisop/runtimeframework/filter/AnnotatedForFilter.java:100-116 | the annotation loop succeeds exactly when some annotation is @AnnotatedFor naming the system |
| AnnotatedForFilter.HasAnnotatedFor | framework/src/main/java/io/github/eisop/runtimeframework/filter/AnnotatedForFilter.java:95-119 | the class is marked exactly when some runtime-visible @AnnotatedFor lists the target system |
| AnnotatedForFilter.PackageInfoOf | framework/src/main/java/io/github/eisop/runtimeframework/filter/AnnotatedForFilter.java:85-90 | a class without a '/' has no package-info class to look at |
| AnnotatedForFilter.TestModelSpec | framework/src/main/java/io/github/eisop/runtimeframework/filter/AnnotatedForFilter.java:40-54 | cached answers survive, and a finished test caches its answer under the class's name |
| AnnotatedForFilter.PackageLevelSpec | framework/src/main/java/io/github/eisop/runtimeframework/filter/AnnotatedForFilter.java:85-93 | cached answers survive; a class of the unnamed package answers false with the cache untouched |
| AnnotatedForFilter.TestInfoSpec | framework/src/main/java/io/github/eisop/runtimeframework/filter/AnnotatedForFilter.java:56-83 | cached answers survive; a nameless class is rejected without touching the cache; a finished test caches its answer |
| AnnotatedForFilter.AnnotatedForFilter.constructor | framework/src/main/java/io/github/eisop/runtimeframework/filter/AnnotatedForFilter.java:24-30 | a new filter has its target system and an empty cache |
| AnnotatedForFilter.AnnotatedForFilter.TestModel | framework/src/main/java/io/github/eisop/runtimeframework/filter/AnnotatedForFilter.java:40-54 | the answer and the new cache are those of the specification |
| AnnotatedForFilter.AnnotatedForFilter.TestInfo | framework/src/main/java/io/github/eisop/runtimeframework/filter/AnnotatedForFilter.java:56-83 | the answer and the new cache are those of the specification |
| AnnotatedForFilter.AnnotatedForFilter.HasPackageLevelAnnotation | framework/src/main/java/io/github/eisop/runtimeframework/filter/AnnotatedForFilter.java:85-93 | the answer and the new cache are those of the specification |
| AnnotatedForFilter.PackageInfoOfPackageInfo | framework/src/main/java/io/github/eisop/runtimeframework/filter/AnnotatedForFilter.java:85-92 | the package-info class of a package-info class is itself |
| AnnotatedForFilter.PackageInfoAccepted | framework/src/main/java/io/github/eisop/runtimeframework/filter/AnnotatedForFilter.java:47-50 | a package-info class is accepted exactly when it carries the marker itself |
| AnnotatedForFilter.TestInfoSound | framework/src/main/java/io/github/eisop/runtimeframework/filter/AnnotatedForFilter.java:56-83 | a finished test by name answers whether the class can be found and is marked or its package is; the cache stays sound |
| AnnotatedForFilter.TestModelSound | framework/src/main/java/io/github/eisop/runtimeframework/filter/AnnotatedForFilter.java:40-54 | a finished test of the class being loaded answers whether it or its package is marked; the cache stays sound |
| AnnotatedForFilter.PackageLevelSound | framework/src/main/java/io/github/eisop/runtimeframework/filter/AnnotatedForFilter.java:85-93 | a finished package lookup answers whether the package-info class is marked; the cache stays sound |
| AnnotatedForFilter.UnmarkedPackageInfoDiverges | framework/src/main/java/io/github/eisop/runtimeframework/filter/AnnotatedForFilter.java:47-92 | an existing, unmarked, uncached package-info class sends the test into endless recursion, whatever the fuel |
| BoundaryStrategy.ResolveGenerator | framework/src/main/java/io/github/eisop/runtimeframework/strategy/BoundaryStrategy.java:30-49 | the first registered annotation decides (ENFORCE its generator, NOOP none); with none registered the default decides |
| BoundaryStrategy.ResolveCases | framework/src/main/java/io/github/eisop/runtimeframework/strategy/BoundaryStrategy.java:30-49 | a generator comes only from an ENFORCE annotation or default, and none only from a NOOP annotation or default |
| BoundaryStrategy.ResolveAppend | framework/src/main/java/io/github/eisop/runtimeframework/strategy/BoundaryStrategy.java:30-41 | annotations after a registered one never change the resolution |
| BoundaryStrategy.Select | framework/src/main/java/io/github/eisop/runtimeframework/strategy/BoundaryStrategy.java:268-276 | keeps exactly the annotations of the type annotations whose target passes the test; the order is stated by SelectAppend and SelectSingle |
| BoundaryStrategy.LocalSelect | framework/src/main/java/io/github/eisop/runtimeframework/strategy/BoundaryStrategy.java:316-337 | keeps exactly the local-variable type annotations with a table entry for the slot; the order and multiplicity are stated by LocalSelectAppend and LocalSelectSingle |
| BoundaryStrategy.SelectAppend | framework/src/main/java/io/github/eisop/runtimeframework/strategy/BoundaryStrategy.java:268-276 | selecting from a table in two parts gives the two selections in table order |
| BoundaryStrategy.SelectSingle | framework/src/main/java/io/github/eisop/runtimeframework/strategy/BoundaryStrategy.java:268-276 | one entry contributes its annotation exactly when its target passes the test |
| BoundaryStrategy.LocalSelectAppend | framework/src/main/java/io/github/eisop/runtimeframework/strategy/BoundaryStrategy.java:316-337 | local-variable selection from a table in two parts keeps table order |
| BoundaryStrategy.LocalSelectSingle | framework/src/main/java/io/github/eisop/runtimeframework/strategy/BoundaryStrategy.java:316-337 | one entry contributes its annotation once per range that uses the slot, and nothing else |
| BoundaryStrategy.DeclarationFirst | framework/src/main/java/io/github/eisop/runtimeframework/strategy/BoundaryStrategy.java:259-278 | a registered declaration annotation of a parameter outranks its type annotations |
| BoundaryStrategy.DefaultCheck | framework/src/main/java/io/github/eisop/runtimeframework/strategy/BoundaryStrategy.java:86-89 | the default's generator exactly under an ENFORCE default |
| BoundaryStrategy.ParameterCheck | framework/src/main/java/io/github/eisop/runtimeframework/strategy/BoundaryStrategy.java:51-57 | none for a non-reference; any check blames the CALLER and exists only under a registered ENFORCE annotation or, with none registered, an ENFORCE default |
| BoundaryStrategy.ParameterCheckResolves | framework/src/main/java/io/github/eisop/runtimeframework/strategy/BoundaryStrategy.java:51-57 | for a reference, the resolution of the parameter's annotations re-attributed to CALLER; with none registered under an ENFORCE default, the parameter is checked implicitly by the default generator |
| BoundaryStrategy.ParameterCheckFirstRegistered | framework/src/main/java/io/github/eisop/runtimeframework/strategy/BoundaryStrategy.java:30-41 | the first registered annotation decides: ENFORCE checks with its generator blaming the caller, NOOP gives none |
| BoundaryStrategy.FieldReadCheck | framework/src/main/java/io/github/eisop/runtimeframework/strategy/BoundaryStrategy.java:64-69 | none for a non-reference; otherwise the resolution of the field's annotations, which under an ENFORCE default with none registered is the default generator |
| BoundaryStrategy.FieldReadCheckFirstRegistered | framework/src/main/java/io/github/eisop/runtimeframework/strategy/BoundaryStrategy.java:30-41 | the first registered field annotation decides: ENFORCE checks with its generator, NOOP gives none |
| BoundaryStrategy.LocalVariableWriteCheck | framework/src/main/java/io/github/eisop/runtimeframework/strategy/BoundaryStrategy.java:76-81 | none for a non-reference; otherwise the resolution of the slot's annotations, which under an ENFORCE default with none registered is the default generator |
| BoundaryStrategy.LocalVariableWriteCheckFirstRegistered | framework/src/main/java/io/github/eisop/runtimeframework/strategy/BoundaryStrategy.java:30-41 | the first registered slot annotation decides: ENFORCE checks with its generator, NOOP gives none |
| BoundaryStrategy.ArrayStoreCheck | framework/src/main/java/io/github/eisop/runtimeframework/strategy/BoundaryStrategy.java:83-92 | the default generator exactly for a reference component under an ENFORCE default |
| BoundaryStrategy.ArrayLoadCheck | framework/src/main/java/io/github/eisop/runtimeframework/strategy/BoundaryStrategy.java:94-103 | the default generator exactly for a reference component under an ENFORCE default |
| BoundaryStrategy.BoundaryCallCheck | framework/src/main/java/io/github/eisop/runtimeframework/strategy/BoundaryStrategy.java:105-117 | the default generator exactly for a reference result of an unchecked owner under an ENFORCE default |
| BoundaryStrategy.BoundaryFieldReadCheck | framework/src/main/java/io/github/eisop/runtimeframework/strategy/BoundaryStrategy.java:119-129 | the default generator exactly for a reference field of an unchecked owner under an ENFORCE default |
| BoundaryStrategy.ScanAnnotations | framework/src/main/java/io/github/eisop/runtimeframework/strategy/BoundaryStrategy.java:145-152 | the two flags say whether some annotation is registered NOOP and whether some is registered ENFORCE |
| BoundaryStrategy.ShouldGenerateBridge | framework/src/main/java/io/github/eisop/runtimeframework/strategy/BoundaryStrategy.java:131-192 | true exactly when the owner is not Object and an ENFORCE annotation, or an un-NOOPed reference parameter or return under an ENFORCE default, asks for it |
| BoundaryStrategy.BridgeParameterCheck | framework/src/main/java/io/github/eisop/runtimeframework/strategy/BoundaryStrategy.java:194-222 | the loop answers the specification of the bridge parameter check |
| BoundaryStrategy.BridgeReturnCheck | framework/src/main/java/io/github/eisop/runtimeframework/strategy/BoundaryStrategy.java:224-249 | the loop answers the specification of the bridge return check |
| BoundaryStrategy.BridgeParameterCheckIsResolution | framework/src/main/java/io/github/eisop/runtimeframework/strategy/BoundaryStrategy.java:194-222 | the bridge parameter check is the resolution re-attributed to the caller; the default fallback never adds anything |
| BoundaryStrategy.BridgeReturnCheckIsResolution | framework/src/main/java/io/github/eisop/runtimeframework/strategy/BoundaryStrategy.java:224-249 | for a reference return the bridge return check is the resolution re-attributed to the caller |
| BoundaryStrategy.UnwantedBridgeChecksNoReference | framework/src/main/java/io/github/eisop/runtimeframework/strategy/BoundaryStrategy.java:131-249 | when no bridge is wanted, no reference parameter and no return would be checked by one |
| BoundaryStrategy.PrimitiveBridgeParameterChecked | framework/src/main/java/io/github/eisop/runtimeframework/strategy/BoundaryStrategy.java:194-200 | an unannotated primitive parameter gets the default generator, blaming the caller, under an ENFORCE default |
| BoundaryStrategy.CarriesAnnotatedFor | framework/src/main/java/io/github/eisop/runtimeframework/strategy/StrictBoundaryStrategy.java:106-119 | any @AnnotatedFor counts, whatever systems it lists; every class the @AnnotatedFor filter marks counts |
| BoundaryStrategy.BoundaryFieldWriteCheck | framework/src/main/java/io/github/eisop/runtimeframework/strategy/StrictBoundaryStrategy.java:29-43 | never for the plain strategy; for the strict one exactly when the owner is checked, the value a reference, the field not opted out and the default ENFORCE |
| BoundaryStrategy.MatchOverridden | framework/src/main/java/io/github/eisop/runtimeframework/strategy/StrictBoundaryStrategy.java:57-78 | a decision comes from a method with the same name and descriptor; a decided check is the ENFORCE default's generator; the three rules are MatchOverriddenRules and MatchOverriddenUndecided |
| BoundaryStrategy.MatchOverriddenRules | framework/src/main/java/io/github/eisop/runtimeframework/strategy/StrictBoundaryStrategy.java:58-75 | the first overridden method that ends the search decides: a NOOP mark on it or its return gives none, otherwise the ENFORCE default's generator |
| BoundaryStrategy.MatchOverriddenUndecided | framework/src/main/java/io/github/eisop/runtimeframework/strategy/StrictBoundaryStrategy.java:57-78 | the search goes on past an ancestor exactly when none of its overridden methods is NOOP-marked or returns a reference under an ENFORCE default |
| BoundaryStrategy.OverrideWalk | framework/src/main/java/io/github/eisop/runtimeframework/strategy/StrictBoundaryStrategy.java:53-84 | any check the walk finds is the ENFORCE default's generator; which ancestor decides is WalkStopsAtFirstDecision |
| BoundaryStrategy.WalkStopsAtFirstDecision | framework/src/main/java/io/github/eisop/runtimeframework/strategy/StrictBoundaryStrategy.java:53-84 | the walk answers with the decision of the nearest visited ancestor that decides |
| BoundaryStrategy.CheckedAncestorDecides | framework/src/main/java/io/github/eisop/runtimeframework/strategy/StrictBoundaryStrategy.java:53-84 | reaching a checked ancestor whose deciding overridden method has no NOOP mark yields the default generator; with a NOOP mark, no check |
| BoundaryStrategy.UndecidedChainNoCheck | framework/src/main/java/io/github/eisop/runtimeframework/strategy/StrictBoundaryStrategy.java:53-88 | when no visited ancestor decides, the override gets no return check |
| BoundaryStrategy.MatchOverriddenLoop | framework/src/main/java/io/github/eisop/runtimeframework/strategy/StrictBoundaryStrategy.java:57-78 | the method loop answers the decision of the specification |
| BoundaryStrategy.UncheckedOverrideReturnCheck | framework/src/main/java/io/github/eisop/runtimeframework/strategy/StrictBoundaryStrategy.java:45-89 | the while loop over ancestors answers the specification: none for the plain strategy or a missing or Object superclass |
| BoundaryStrategy.UncheckedChainNoCheck | framework/src/main/java/io/github/eisop/runtimeframework/strategy/StrictBoundaryStrategy.java:53-84 | an override whose visited ancestors are all unchecked gets no return check |
| HierarchyResolver.ResolveUncheckedMethods | framework/src/main/java/io/github/eisop/runtimeframework/resolution/BytecodeHierarchyResolver.java:21-79 | the collected set is the specification's set of unchecked inherited methods |
| HierarchyResolver.WalkUncheckedAncestors | framework/src/main/java/io/github/eisop/runtimeframework/resolution/BytecodeHierarchyResolver.java:39-77 | the while loop collects the kept candidates of the ancestors up to the first checked, missing or top one |
| HierarchyResolver.CollectInherited | framework/src/main/java/io/github/eisop/runtimeframework/resolution/BytecodeHierarchyResolver.java:50-67 | one ancestor's methods extend the known signatures and keep each inheritable method whose signature was unknown |
| HierarchyResolver.CollectMethod | framework/src/main/java/io/github/eisop/runtimeframework/resolution/BytecodeHierarchyResolver.java:53-66 | one method of an ancestor: a private, static, final, synthetic or bridge method is skipped; otherwise its signature becomes known, and the method is kept exactly when that signature was unknown |
| HierarchyResolver.AncestorsStep | framework/src/main/java/io/github/eisop/runtimeframework/resolution/BytecodeHierarchyResolver.java:39-71 | a loadable unchecked ancestor is visited and the walk goes on from its superclass |
| HierarchyResolver.AncestorsStop | framework/src/main/java/io/github/eisop/runtimeframework/resolution/BytecodeHierarchyResolver.java:39-48 | the walk stops at Object, at a class the filter accepts and at a missing class |
| HierarchyResolver.CandidatesInheritable | framework/src/main/java/io/github/eisop/runtimeframework/resolution/BytecodeHierarchyResolver.java:52-67 | every candidate pairs a visited ancestor with one of its inheritable methods |
| HierarchyResolver.InheritableOfSound | framework/src/main/java/io/github/eisop/runtimeframework/resolution/BytecodeHierarchyResolver.java:52-61 | the candidates of one ancestor are its own inheritable methods |
| HierarchyResolver.TakenIsUnion | framework/src/main/java/io/github/eisop/runtimeframework/resolution/BytecodeHierarchyResolver.java:24-66 | the known signatures are the class's own ones plus those of every candidate seen |
| HierarchyResolver.ChosenAreNew | framework/src/main/java/io/github/eisop/runtimeframework/resolution/BytecodeHierarchyResolver.java:63-67 | no kept candidate has the signature of a method the class declares |
| HierarchyResolver.ChosenAreTaken | framework/src/main/java/io/github/eisop/runtimeframework/resolution/BytecodeHierarchyResolver.java:63-66 | every kept candidate's signature is known afterwards |
| HierarchyResolver.ChosenDistinct | framework/src/main/java/io/github/eisop/runtimeframework/resolution/BytecodeHierarchyResolver.java:63-67 | no two kept candidates share a signature |
| HierarchyResolver.ChosenFirstOccurrence | framework/src/main/java/io/github/eisop/runtimeframework/resolution/BytecodeHierarchyResolver.java:63-67 | each kept candidate is the first with its signature: the nearest ancestor wins |
| HierarchyResolver.ChosenCoversCandidates | framework/src/main/java/io/github/eisop/runtimeframework/resolution/BytecodeHierarchyResolver.java:63-67 | every candidate's signature is the class's own or carried by a kept candidate |
| HierarchyResolver.ResolvedMethodsAreBridgeable | framework/src/main/java/io/github/eisop/runtimeframework/resolution/BytecodeHierarchyResolver.java:21-79 | the result holds inheritable, non-overridden methods of visited ancestors, one per signature |
| HierarchyResolver.ResolvedMethodsComplete | framework/src/main/java/io/github/eisop/runtimeframework/resolution/BytecodeHierarchyResolver.java:52-67 | every inheritable method of a visited ancestor whose signature the class does not declare has its signature resolved |
| HierarchyResolver.NothingAboveObject | framework/src/main/java/io/github/eisop/runtimeframework/resolution/BytecodeHierarchyResolver.java:31-37 | a class without a superclass or directly under Object inherits nothing to bridge |
| NullnessCheckGenerator.DefaultGenerator | checker/src/main/java/io/github/eisop/runtimeframework/checker/nullness/NullnessCheckGenerator.java:26-28 | the no-argument generator blames the frame holding the check (LOCAL) |
| NullnessCheckGenerator.WithAttribution | checker/src/main/java/io/github/eisop/runtimeframework/checker/nullness/NullnessCheckGenerator.java:34-37 | the new generator carries the requested attribution |
| NullnessCheckGenerator.ReferenceCheckCallsVerifier | checker/src/main/java/io/github/eisop/runtimeframework/checker/nullness/NullnessCheckGenerator.java:39-52 | a reference check calls the verifier with "<name> must be NonNull" and the generator's attribution, in two instructions exactly for LOCAL |
| NullnessCheckGenerator.PrimitiveCheckOnlyDiscards | checker/src/main/java/io/github/eisop/runtimeframework/checker/nullness/NullnessCheckGenerator.java:53-56 | a non-reference value is popped by its slot size and the verifier is never called |
| NullnessCheckGenerator.GenerateCheckConsumes | checker/src/main/java/io/github/eisop/runtimeframework/checker/nullness/NullnessCheckGenerator.java:39-57 | every check consumes exactly the checked value and leaves the rest of the stack |
| NullnessCheckGenerator.DefaultKinds | checker/src/main/java/io/github/eisop/runtimeframework/checker/nullness/NullnessCheckGenerator.java:15-17 | the two-argument checkNotNull takes two references |
| NullnessCheckGenerator.AttributedKinds | checker/src/main/java/io/github/eisop/runtimeframework/checker/nullness/NullnessCheckGenerator.java:19-22 | the three-argument checkNotNull takes three references |
| NullnessCheckGenerator.LocalCallConsumes | checker/src/main/java/io/github/eisop/runtimeframework/checker/nullness/NullnessCheckGenerator.java:44-45 | the two-argument call pops the value and the message |
| NullnessCheckGenerator.AttributedCallConsumes | checker/src/main/java/io/github/eisop/runtimeframework/checker/nullness/NullnessCheckGenerator.java:46-52 | loading the attribution constant and the three-argument call pop the value and the message |
| NullnessCheckGenerator.DupCheckRestores | checker/src/main/java/io/github/eisop/runtimeframework/checker/nullness/NullnessCheckGenerator.java:39-57 | dup followed by a reference check leaves the stack as it was |
| NullnessCheckGenerator.DupX1CheckSwapRestores | framework/src/main/java/io/github/eisop/runtimeframework/instrumentation/EnforcementTransform.java:171-174 | dup_x1, a reference check and swap leave the object and value of a PUTFIELD as they were |
| EnforcementTransform.FindField | framework/src/main/java/io/github/eisop/runtimeframework/instrumentation/EnforcementTransform.java:283-291 | null exactly when no field matches name and type; otherwise the first matching field |
| EnforcementTransform.FieldWriteTarget | framework/src/main/java/io/github/eisop/runtimeframework/instrumentation/EnforcementTransform.java:152-165 | a write check targets a reference field of another owner (the class's own fields are never checked on write) |
| EnforcementTransform.FieldReadTarget | framework/src/main/java/io/github/eisop/runtimeframework/instrumentation/EnforcementTransform.java:179-192 | a read check targets a reference field |
| EnforcementTransform.Before | framework/src/main/java/io/github/eisop/runtimeframework/instrumentation/EnforcementTransform.java:84-131 | checks go before value-handing instructions only; returns only outside checked scope, local stores only inside it |
| EnforcementTransform.After | framework/src/main/java/io/github/eisop/runtimeframework/instrumentation/EnforcementTransform.java:84-131 | checks go after value-bringing instructions only, and only in checked scope |
| EnforcementTransform.WriteChecksIgnoreScope | framework/src/main/java/io/github/eisop/runtimeframework/instrumentation/EnforcementTransform.java:84-117 | field-write and array-store checks are the same in both scopes |
| EnforcementTransform.ParamSlotStep | framework/src/main/java/io/github/eisop/runtimeframework/instrumentation/EnforcementTransform.java:133-149 | each parameter's slot follows the previous one by its slot size |
| EnforcementTransform.ParamCheckRestoresStack | framework/src/main/java/io/github/eisop/runtimeframework/instrumentation/EnforcementTransform.java:140-148 | one parameter check loads its reference slot and consumes it again |
| EnforcementTransform.EntryChecksRestoreStack | framework/src/main/java/io/github/eisop/runtimeframework/instrumentation/EnforcementTransform.java:133-150 | the entry checks leave any stack as they found it |
| EnforcementTransform.UnannotatedParameterChecked | framework/src/main/java/io/github/eisop/runtimeframework/instrumentation/EnforcementTransform.java:139-149 | an unannotated reference parameter under an ENFORCE default is loaded from its slot and checked by the default generator blaming the caller, at its own position in the entry checks |
| EnforcementTransform.BeforeRestoresStack | framework/src/main/java/io/github/eisop/runtimeframework/instrumentation/EnforcementTransform.java:152-273 | a check before a write leaves the stack as it was, the PUTFIELD object included |
| EnforcementTransform.AfterRestoresStack | framework/src/main/java/io/github/eisop/runtimeframework/instrumentation/EnforcementTransform.java:179-254 | a check after a read leaves the stack as it was |
| EnforcementTransform.HandleKeepsElement | framework/src/main/java/io/github/eisop/runtimeframework/instrumentation/EnforcementTransform.java:84-131 | handling an element emits it once, between its before and after checks |
| EnforcementTransform.RunErases | framework/src/main/java/io/github/eisop/runtimeframework/instrumentation/EnforcementTransform.java:48-82 | a pass whose handler keeps each element gives back the code once the insertions are deleted |
| EnforcementTransform.TransformErases | framework/src/main/java/io/github/eisop/runtimeframework/instrumentation/EnforcementTransform.java:48-131 | deleting the inserted instructions from a rewritten method gives back its code, each element once and in order |
| EnforcementTransform.RunAfterEntry | framework/src/main/java/io/github/eisop/runtimeframework/instrumentation/EnforcementTransform.java:65-68 | once the entry checks are out, every element is only handled |
| EnforcementTransform.UncheckedHasNoEntryChecks | framework/src/main/java/io/github/eisop/runtimeframework/instrumentation/EnforcementTransform.java:45 | outside checked scope no entry checks are emitted |
| EnforcementTransform.RunPlacesEntryChecks | framework/src/main/java/io/github/eisop/runtimeframework/instrumentation/EnforcementTransform.java:65-82 | the entry checks go right after the first line number or right before the first instruction |
| EnforcementTransform.RunWithoutEntryPoint | framework/src/main/java/io/github/eisop/runtimeframework/instrumentation/EnforcementTransform.java:65-82 | code with no line number or instruction gets no entry checks |
| EnforcementTransform.EntryChecksPlacement | framework/src/main/java/io/github/eisop/runtimeframework/instrumentation/EnforcementTransform.java:45-82 | in checked scope the entry checks are emitted exactly once, after the first line number or before the first instruction |
| EnforcementTransform.NoEntryPointNoEntryChecks | framework/src/main/java/io/github/eisop/runtimeframework/instrumentation/EnforcementTransform.java:65-82 | in checked scope, code with no line number or instruction gets no entry checks |
| EnforcementTransform.EnforcementTransform.constructor | framework/src/main/java/io/github/eisop/runtimeframework/instrumentation/EnforcementTransform.java:34-46 | outside checked scope the entry checks start as already emitted |
| EnforcementTransform.EnforcementTransform.Accept | framework/src/main/java/io/github/eisop/runtimeframework/instrumentation/EnforcementTransform.java:48-63 | appends the step of the specification and moves the entry-check flag as it says |
| EnforcementTransform.EnforcementTransform.MaybeEmitEntryChecks | framework/src/main/java/io/github/eisop/runtimeframework/instrumentation/EnforcementTransform.java:65-82 | consumes exactly a first line number; the flag is set once a line number or instruction is seen; the checks follow a line number and precede an instruction |
| EnforcementTransform.EnforcementTransform.EmitParameterChecks | framework/src/main/java/io/github/eisop/runtimeframework/instrumentation/EnforcementTransform.java:133-150 | the slot loop appends the entry checks of every parameter in order |
| EnforcementTransform.EnforcementTransform.ParameterChecks | framework/src/main/java/io/github/eisop/runtimeframework/instrumentation/EnforcementTransform.java:135-149 | the loop over the parameters yields the checks of all of them, each read from its own slot, in declaration order |
| EnforcementTransform.EnforcementTransform.ParameterCheckAt | framework/src/main/java/io/github/eisop/runtimeframework/instrumentation/EnforcementTransform.java:140-148 | one parameter: nothing when the strategy asks for no check, otherwise a load of its slot followed by the check under the diagnostic "Parameter i" |
| EnforcementTransform.EnforcementTransform.HandleElement | framework/src/main/java/io/github/eisop/runtimeframework/instrumentation/EnforcementTransform.java:54-62 | appends the element with its checks around it |
| EnforcementTransform.EnforcementTransform.HandleField | framework/src/main/java/io/github/eisop/runtimeframework/instrumentation/EnforcementTransform.java:84-96 | appends the field instruction with its checks around it |
| EnforcementTransform.EnforcementTransform.HandleReturn | framework/src/main/java/io/github/eisop/runtimeframework/instrumentation/EnforcementTransform.java:98-105 | appends the return with its check before it |
| EnforcementTransform.EnforcementTransform.HandleInvoke | framework/src/main/java/io/github/eisop/runtimeframework/instrumentation/EnforcementTransform.java:107-112 | appends the call with its check after it |
| EnforcementTransform.EnforcementTransform.HandleArrayStore | framework/src/main/java/io/github/eisop/runtimeframework/instrumentation/EnforcementTransform.java:114-117 | appends the array store with its check before it |
| EnforcementTransform.EnforcementTransform.HandleArrayLoad | framework/src/main/java/io/github/eisop/runtimeframework/instrumentation/EnforcementTransform.java:119-124 | appends the array load with its check after it |
| EnforcementTransform.EnforcementTransform.HandleStore | framework/src/main/java/io/github/eisop/runtimeframework/instrumentation/EnforcementTransform.java:126-131 | appends the local store with its check before it |
| EnforcementTransform.TransformCode | framework/src/main/java/io/github/eisop/runtimeframework/instrumentation/RuntimeInstrumenter.java:36-38 | a fresh transform fed every element in order produces the specified rewrite |
| EnforcementInstrumenter.LoadLocal | framework/src/main/java/io/github/eisop/runtimeframework/instrumentation/EnforcementInstrumenter.java:106-115 | a load of the given slot for every kind but void, which raises IllegalArgumentException("Unknown type") |
| EnforcementInstrumenter.LoadLocalPushes | framework/src/main/java/io/github/eisop/runtimeframework/instrumentation/EnforcementInstrumenter.java:106-115 | the load pushes the slot's value with the kind the slot holds |
| EnforcementInstrumenter.ReturnResult | framework/src/main/java/io/github/eisop/runtimeframework/instrumentation/EnforcementInstrumenter.java:117-129 | the return instruction of the return type's stack kind |
| EnforcementInstrumenter.BridgeHeader | framework/src/main/java/io/github/eisop/runtimeframework/instrumentation/EnforcementInstrumenter.java:54-57 | a bridge is PUBLIC (not static) with the inherited method's name and descriptor |
| EnforcementInstrumenter.EmitParameterCheck | framework/src/main/java/io/github/eisop/runtimeframework/instrumentation/EnforcementInstrumenter.java:66-72 | one parameter's check from the running slot is that of the specification |
| EnforcementInstrumenter.EmitParameterChecks | framework/src/main/java/io/github/eisop/runtimeframework/instrumentation/EnforcementInstrumenter.java:61-74 | the slot loop, starting at 1, emits every parameter's check in order |
| EnforcementInstrumenter.EmitArgumentLoads | framework/src/main/java/io/github/eisop/runtimeframework/instrumentation/EnforcementInstrumenter.java:77-83 | the reload loop emits each parameter's typed load, raising at the first void |
| EnforcementInstrumenter.EmitReturnCheck | framework/src/main/java/io/github/eisop/runtimeframework/instrumentation/EnforcementInstrumenter.java:91-98 | dup and the return check when one is wanted, else nothing |
| EnforcementInstrumenter.EmitBridge | framework/src/main/java/io/github/eisop/runtimeframework/instrumentation/EnforcementInstrumenter.java:49-104 | the emitted bridge is the specified one |
| EnforcementInstrumenter.ArgumentLoadsFail | framework/src/main/java/io/github/eisop/runtimeframework/instrumentation/EnforcementInstrumenter.java:77-83 | the reloads raise exactly when some parameter is declared void, with IllegalArgumentException |
| EnforcementInstrumenter.ParentOwnerIsOwner | framework/src/main/java/io/github/eisop/runtimeframework/instrumentation/EnforcementInstrumenter.java:85-88 | for an internal name without dots, the forwarding call names the parent class itself |
| EnforcementInstrumenter.BridgeSlotsHold | framework/src/main/java/io/github/eisop/runtimeframework/instrumentation/EnforcementInstrumenter.java:61-74 | the running slot of each parameter lies within the bridge's locals and holds that parameter's kind |
| EnforcementInstrumenter.BridgeParamCheckRestores | framework/src/main/java/io/github/eisop/runtimeframework/instrumentation/EnforcementInstrumenter.java:66-72 | the check of a reference parameter leaves the stack as it found it |
| EnforcementInstrumenter.BridgeParamChecksRestore | framework/src/main/java/io/github/eisop/runtimeframework/instrumentation/EnforcementInstrumenter.java:61-74 | when every checked parameter is a reference, the parameter checks leave the stack as they found it |
| EnforcementInstrumenter.PrimitiveBridgeCheckIllTyped | framework/src/main/java/io/github/eisop/runtimeframework/instrumentation/EnforcementInstrumenter.java:66-72 | an unannotated primitive parameter under an ENFORCE default gets a check whose aload the stack semantics rejects |
| EnforcementInstrumenter.ArgumentLoadsPush | framework/src/main/java/io/github/eisop/runtimeframework/instrumentation/EnforcementInstrumenter.java:77-83 | with no void parameter the reloads push every parameter's value from its own slots |
| EnforcementInstrumenter.ArgValueKinds | framework/src/main/java/io/github/eisop/runtimeframework/instrumentation/EnforcementInstrumenter.java:77-83 | the pushed values have the kinds the descriptor gives its parameters, slot by slot |
| EnforcementInstrumenter.BridgeCallStack | framework/src/main/java/io/github/eisop/runtimeframework/instrumentation/EnforcementInstrumenter.java:61-88 | up to the invokespecial the stack holds the receiver and the arguments, with the kinds the descriptor takes |
| EnforcementInstrumenter.BridgeReturnStack | framework/src/main/java/io/github/eisop/runtimeframework/instrumentation/EnforcementInstrumenter.java:91-101 | the return check leaves the result in place and the return matches its kind |
| EnforcementInstrumenter.BridgeShape | framework/src/main/java/io/github/eisop/runtimeframework/instrumentation/EnforcementInstrumenter.java:49-104 | a bridge is built exactly when no parameter is void; it is PUBLIC, with the parent's name and descriptor and one code attribute |
| EnforcementInstrumenter.WantedBridges | framework/src/main/java/io/github/eisop/runtimeframework/instrumentation/EnforcementInstrumenter.java:41-47 | the bridged candidates are among the resolver's candidates |
| EnforcementInstrumenter.BridgesOfSpec | framework/src/main/java/io/github/eisop/runtimeframework/instrumentation/EnforcementInstrumenter.java:41-47 | one bridge per candidate, in order; the loop fails exactly when one bridge cannot be built |
| EnforcementInstrumenter.CodeIsInsertion | framework/src/main/java/io/github/eisop/runtimeframework/instrumentation/EnforcementTransform.java:48-131 | the output of the code pass is its input with instructions inserted |
| EnforcementInstrumenter.RewriteOnlyInserts | framework/src/main/java/io/github/eisop/runtimeframework/instrumentation/RuntimeInstrumenter.java:27-46 | rewriting a method keeps its header and non-code elements; each code attribute gets its code back with instructions inserted |
| EnforcementInstrumenter.TransformMethod | framework/src/main/java/io/github/eisop/runtimeframework/instrumentation/RuntimeInstrumenter.java:29-42 | a method with code has each Code attribute rewritten by a fresh transform; other elements are copied |
| EnforcementInstrumenter.TransformElement | framework/src/main/java/io/github/eisop/runtimeframework/instrumentation/RuntimeInstrumenter.java:32-40 | one element of a method: a Code attribute is rewritten by a fresh transform, any other element is copied |
| EnforcementInstrumenter.RewriteAllMethods | framework/src/main/java/io/github/eisop/runtimeframework/instrumentation/RuntimeInstrumenter.java:27-46 | every method, rewritten or copied, goes to the builder in order |
| EnforcementInstrumenter.ConsiderCandidate | framework/src/main/java/io/github/eisop/runtimeframework/instrumentation/EnforcementInstrumenter.java:43-45 | a candidate is bridged exactly when the strategy wants it, with the specified bridge |
| EnforcementInstrumenter.EmitBridges | framework/src/main/java/io/github/eisop/runtimeframework/instrumentation/EnforcementInstrumenter.java:41-47 | the loop bridges wanted candidates only, each once, all of them unless an exception ends it |
| EnforcementInstrumenter.EnforcementInstrumenter.constructor | framework/src/main/java/io/github/eisop/runtimeframework/instrumentation/EnforcementInstrumenter.java:25-32 | the instrumenter holds its strategy, resolver and scope filter |
| EnforcementInstrumenter.EnforcementInstrumenter.GenerateBridgeMethods | framework/src/main/java/io/github/eisop/runtimeframework/instrumentation/EnforcementInstrumenter.java:40-47 | bridges exactly the wanted candidates among the resolver's unchecked inherited methods, each once |
| EnforcementInstrumenter.EnforcementInstrumenter.TransformClass | framework/src/main/java/io/github/eisop/runtimeframework/instrumentation/RuntimeInstrumenter.java:21-55 | every method is rewritten in order; the bridges are appended exactly in checked scope, which is decided once from the class's name |
| RuntimeTransformer.PackageOf | framework/src/main/java/io/github/eisop/runtimeframework/agent/RuntimeTransformer.java:109-112 | no package exactly without a '/'; otherwise the part before the last '/' |
| RuntimeTransformer.PackageLookupsAgree | framework/src/main/java/io/github/eisop/runtimeframework/agent/RuntimeTransformer.java:108-138 | the transformer's package lookup agrees with the @AnnotatedFor filter's |
| RuntimeTransformer.DynamicFilter | framework/src/main/java/io/github/eisop/runtimeframework/agent/RuntimeTransformer.java:89-96 | answers the computed flag for this class and defers to the policy for every other name |
| RuntimeTransformer.CheckedDecision | framework/src/main/java/io/github/eisop/runtimeframework/agent/RuntimeTransformer.java:71-83 | checked exactly when the policy accepts, or trust is on and the class or its package is marked; a null name reaching the package lookup raises NullPointerException |
| RuntimeTransformer.RuntimeTransformer.constructor | framework/src/main/java/io/github/eisop/runtimeframework/agent/RuntimeTransformer.java:29-40 | the transformer holds its filters, checker and flags, with an empty package cache |
| RuntimeTransformer.RuntimeTransformer.HasPackageLevelAnnotation | framework/src/main/java/io/github/eisop/runtimeframework/agent/RuntimeTransformer.java:108-138 | answers whether the package-info class is marked; cached answers survive and only the class's package is added |
| RuntimeTransformer.RuntimeTransformer.Transform | framework/src/main/java/io/github/eisop/runtimeframework/agent/RuntimeTransformer.java:43-106 | the result is the specified outcome of the decision flow, and the package cache stays sound |
| RuntimeTransformer.WovenExactly | framework/src/main/java/io/github/eisop/runtimeframework/agent/RuntimeTransformer.java:51-99 | a class is woven exactly when not skipped, scanned, parsed, checked or in global mode, and the weave succeeds |
| RuntimeTransformer.SkippedNeverWoven | framework/src/main/java/io/github/eisop/runtimeframework/agent/RuntimeTransformer.java:51-57 | a class under java/, sun/, jdk/ or org/gradle is never woven |
| RuntimeTransformer.UncheckedNeedsGlobalMode | framework/src/main/java/io/github/eisop/runtimeframework/agent/RuntimeTransformer.java:85-87 | outside global mode an unchecked class is left unchanged |
| RuntimeTransformer.GlobalModeOnlyAdds | framework/src/main/java/io/github/eisop/runtimeframework/agent/RuntimeTransformer.java:85-99 | turning global mode on never un-weaves a class nor changes how it is woven |
| RuntimeTransformer.MarkedClassWovenChecked | framework/src/main/java/io/github/eisop/runtimeframework/agent/RuntimeTransformer.java:73-96 | under trust, a scanned class marked for the checker is checked, woven with the checker's weave, and in scope of its dynamic filter |
| RuntimeAgent.ListEntries | framework/src/main/java/io/github/eisop/runtimeframework/agent/RuntimeAgent.java:29 | the list entries are the comma-separated pieces, none null |
| RuntimeAgent.Premain | framework/src/main/java/io/github/eisop/runtimeframework/agent/RuntimeAgent.java:15-48 | the two filters built through the if-chains are the policy and scan filters of the specification |
| RuntimeAgent.PolicyWithinScan | framework/src/main/java/io/github/eisop/runtimeframework/agent/RuntimeAgent.java:26-48 | every class the policy checks is also scanned |
| RuntimeAgent.FiltersWithinSafety | framework/src/main/java/io/github/eisop/runtimeframework/agent/RuntimeAgent.java:17-48 | neither filter accepts a class the safety filter rejects |
| RuntimeAgent.ListedClassesChecked | framework/src/main/java/io/github/eisop/runtimeframework/agent/RuntimeAgent.java:27-30 | with a non-blank list a safe class is checked exactly when some entry normalises to its name |
| RuntimeAgent.TrustWithoutListChecksNone | framework/src/main/java/io/github/eisop/runtimeframework/agent/RuntimeAgent.java:31-44 | trusting @AnnotatedFor without a list checks no class by policy yet scans every safe class |
| RuntimeAgent.BlankListChecksEverySafeClass | framework/src/main/java/io/github/eisop/runtimeframework/agent/RuntimeAgent.java:26-48 | a class list that is only whitespace, as Character.isWhitespace counts it, acts as no list: without trust every safe class is checked and scanned |
| RuntimeAgent.SeparatorListsAreBlank | framework/src/main/java/io/github/eisop/runtimeframework/agent/RuntimeAgent.java:27 | a list of Unicode separators such as U+3000 or U+2028 is blank, while one holding the no-break space U+00A0 is not |
| RuntimeAgent.AgentWeavesOnlyPolicyClasses | framework/src/main/java/io/github/eisop/runtimeframework/agent/RuntimeAgent.java:26-48 | with premain's filters only safe classes are woven, and without trust or global mode only policy classes |
| Runtime.RuntimeVerifier.constructor | framework/src/main/java/io/github/eisop/runtimeframework/runtime/RuntimeVerifier.java:12 | the initial handler throws |
| Runtime.RuntimeVerifier.SetViolationHandler | framework/src/main/java/io/github/eisop/runtimeframework/runtime/RuntimeVerifier.java:22-27 | a null handler raises IllegalArgumentException and keeps the old one; any other becomes current |
| Runtime.RuntimeVerifier.ReportViolation | framework/src/main/java/io/github/eisop/runtimeframework/runtime/RuntimeVerifier.java:38-40 | the report goes to the handler current at the call, with its checker name, message and attribution |
| Runtime.SwapThenReport | framework/src/main/java/io/github/eisop/runtimeframework/runtime/RuntimeVerifier.java:22-40 | after a handler is set, reports reach that handler |
| NullnessRuntimeVerifier.NullViolation | checker/src/main/java/io/github/eisop/runtimeframework/checker/nullness/NullnessRuntimeVerifier.java:32-36 | a violation exactly for null, under "Nullness" with the message and attribution given |
| NullnessRuntimeVerifier.CheckNotNull | checker/src/main/java/io/github/eisop/runtimeframework/checker/nullness/NullnessRuntimeVerifier.java:32-36 | no report for an object; for null, one report of that violation to the current handler |
| NullnessRuntimeVerifier.CheckNotNullLocal | checker/src/main/java/io/github/eisop/runtimeframework/checker/nullness/NullnessRuntimeVerifier.java:21-23 | the two-argument form reports as the three-argument form with LOCAL |
| TestUtils.Remaining | test-utils/src/main/java/io/github/eisop/testutils/TestViolationHandler.java:26-28 | the frames left are exactly the frames outside the framework and the test utilities |
| TestUtils.FindCaller | test-utils/src/main/java/io/github/eisop/testutils/TestViolationHandler.java:22-33 | a blamed frame is a frame outside the framework; none exactly when too few such frames remain |
| TestUtils.Location | test-utils/src/main/java/io/github/eisop/testutils/TestViolationHandler.java:14-16 | file:line of the blamed frame, or Unknown:0 |
| TestUtils.ViolationLine | test-utils/src/main/java/io/github/eisop/testutils/TestViolationHandler.java:13-20 | the line starts with "[VIOLATION] ", ends with " (<checker>) <message>", and what lies between is the location of the frame FindCaller blames |
| TestUtils.LocalBlamesFirstApplicationFrame | test-utils/src/main/java/io/github/eisop/testutils/TestViolationHandler.java:22-33 | LOCAL blames the innermost frame outside the framework |
| TestUtils.CallerBlamesSecondApplicationFrame | test-utils/src/main/java/io/github/eisop/testutils/TestViolationHandler.java:22-33 | CALLER blames the second frame outside the framework |
| TestUtils.CallerWithoutCallerIsUnknown | test-utils/src/main/java/io/github/eisop/testutils/TestViolationHandler.java:13-33 | with at most one application frame CALLER blames nobody and the line says Unknown:0 |
| TestUtils.AllFrameworkLeavesNothing | test-utils/src/main/java/io/github/eisop/testutils/TestViolationHandler.java:26-30 | a stack of framework frames only leaves nothing to blame |

## Left out

- Class-file parsing and writing, resource loading and the class loader are abstracted. A class lookup is a finite map, and the model keeps no distinction between an absent, unreadable or unparseable class file.
- Printing to the console and printed stack traces are left out everywhere, as is the exception-throwing and logging behaviour of the concrete handlers. A handler is a value that receives deliveries.
- The concurrent maps and the volatile handler field are modelled as sequential state.
- The agent's reading of system properties, its reflective loading of the handler and checker classes, and its registration of the transformer are left out. Premain is modelled from its three flags.
- RuntimeTransformer.RuntimeTransformer.Transform takes the checker's weave as a function parameter. The wiring of the checker to an instrumenter belongs to the superseded engine generation, which is not part of this model.
- RuntimeTransformer.DynamicFilter: the source dereferences the name of the class being asked about, so a nameless class would throw. The model answers the policy filter for it.
- AnnotatedForFilter.TestInfoSound, AnnotatedForFilter.TestModelSound, AnnotatedForFilter.PackageLevelSound and RuntimeTransformer.RuntimeTransformer.Valid: each object reads one fixed class map. In the source, the class-name cache and the package cache are shared by every class loader, while each lookup goes through the loader of the current call. A cached answer may therefore come from a class another loader found, and may disagree with what the current loader would find. The model does not capture this cross-loader staleness, so these soundness results hold only for a single loader's view.
- AnnotatedForFilter.AnnotatedForFilter.TestInfo: the recursion of the @AnnotatedFor filter is bounded by fuel. The model reports `Diverges` where the source overflows its stack.
- The ancestor walks of the resolver and of the strict strategy require the superclass chain to end within the number of known classes (WalkEnds, OverrideWalkEnds). A cyclic hierarchy is rejected by the JVM and is not modelled.
- Jump labels, branch offsets and the stack-map frames the class-file library recomputes are not modelled. An inserted block is a sequence of straight-line instructions.
- The stack semantics covers only the instructions of the inserted checks and the loads around them: loads, dup, dup_x1, swap, pop, pop2, ldc, getstatic and invokestatic of the verifier. The invokespecial and the return of a bridge are not stepped: EnforcementInstrumenter.BridgeCallStack states the stack just before the invokespecial, and EnforcementInstrumenter.BridgeReturnStack starts from the result it leaves.
- EnforcementInstrumenter.EmitBridges: the loop walks a set, whose iteration order the source leaves unspecified. The model lets the loop pick, and states the order it took as a ghost result.
- BoundaryStrategy.BridgeParameterCheck requires the parameter index to be within the descriptor, which every caller guarantees. The source would throw IndexOutOfBoundsException past it.
- Reflection-based resolution, the older policy classes and the debug tracer are not part of this model.
