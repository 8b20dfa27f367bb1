/**
 * The decision policy: for each kind of program point, which check generator
 * (if any) the weaver should use. The boundary strategy checks values that
 * cross from unchecked code into checked code; the strict variant also checks
 * writes into fields of checked classes and the returns of unchecked
 * overrides of checked methods.
 */
module BoundaryStrategy {
  import opened Wrappers
  import opened ClassFile
  import opened Runtime
  import opened NullnessCheckGenerator
  import opened Configuration
  import opened Filters
  import opened HierarchyResolver
  import AnnotatedForFilter

  /**
   * The two strategies. Both read a configuration snapshot and ask the safety
   * filter whether an owner class is in checked scope; the strict one also
   * loads class files through the context loader (the class map).
   */
  datatype Strategy =
    | Boundary(configuration: ValidConfiguration, safetyFilter: ClassInfo -> bool)
    | StrictBoundary(configuration: ValidConfiguration, safetyFilter: ClassInfo -> bool, classes: ClassMap)

  // ---- Registry resolution ----

  /** What an entry asks for: the generator of an ENFORCE entry, nothing for NOOP. */
  function EntryGenerator(e: ConfigEntry): Option<CheckGenerator> {
    if e.kind == Enforce then e.verifier else None
  }

  predicate Registered(c: Configuration, a: Annotation) {
    a.descriptor in c.registry
  }

  predicate NoneRegistered(c: Configuration, annotations: seq<Annotation>) {
    forall k :: 0 <= k < |annotations| ==> !Registered(c, annotations[k])
  }

  /** The annotation at k is registered and none before it is. */
  predicate FirstRegisteredAt(c: Configuration, annotations: seq<Annotation>, k: int) {
    0 <= k < |annotations| && Registered(c, annotations[k]) &&
    forall j :: 0 <= j < k ==> !Registered(c, annotations[j])
  }

  /** Some annotation of the list is registered with this kind. */
  predicate AnyRegisteredAs(c: Configuration, annotations: seq<Annotation>, kind: ValidationKind) {
    exists k :: 0 <= k < |annotations| && Registered(c, annotations[k]) && c.registry[annotations[k].descriptor].kind == kind
  }

  /**
   * resolveGenerator: the first registered annotation decides (ENFORCE gives
   * its generator, NOOP gives none); unregistered ones are skipped; with none
   * registered, the default decides.
   */
  function ResolveGenerator(c: Configuration, annotations: seq<Annotation>): (r: Option<CheckGenerator>)
    ensures NoneRegistered(c, annotations) ==> r == EntryGenerator(c.defaultEntry)
    ensures forall k :: FirstRegisteredAt(c, annotations, k) ==> r == EntryGenerator(c.registry[annotations[k].descriptor])
  {
    if annotations == [] then EntryGenerator(c.defaultEntry)
    else if annotations[0].descriptor in c.registry then EntryGenerator(c.registry[annotations[0].descriptor])
    else
      var rest := annotations[1..];
      assert forall k :: FirstRegisteredAt(c, annotations, k) ==> k >= 1 && FirstRegisteredAt(c, rest, k - 1);
      ResolveGenerator(c, rest)
  }

  /**
   * Under a well-formed configuration a resolution yields a generator only when
   * an ENFORCE annotation or an ENFORCE default asks for one, and yields none
   * only when a NOOP annotation or a NOOP default says so.
   */
  lemma {:induction false} ResolveCases(c: ValidConfiguration, annotations: seq<Annotation>)
    ensures ResolveGenerator(c, annotations).Some? ==>
      AnyRegisteredAs(c, annotations, Enforce) || (NoneRegistered(c, annotations) && c.defaultEntry.kind == Enforce)
    ensures ResolveGenerator(c, annotations).None? ==>
      AnyRegisteredAs(c, annotations, Noop) || c.defaultEntry.kind == Noop
  {
    if annotations == [] {
    } else if annotations[0].descriptor in c.registry {
      var e := c.registry[annotations[0].descriptor];
      assert RegisteredEntryShape(e);
      if e.kind == Enforce {
        assert AnyRegisteredAs(c, annotations, Enforce);
      } else {
        assert AnyRegisteredAs(c, annotations, Noop);
      }
    } else {
      var rest := annotations[1..];
      ResolveCases(c, rest);
      assert forall k :: 0 <= k < |rest| ==> rest[k] == annotations[k + 1];
      if ResolveGenerator(c, rest).Some? && AnyRegisteredAs(c, rest, Enforce) {
        var k :| 0 <= k < |rest| && Registered(c, rest[k]) && c.registry[rest[k].descriptor].kind == Enforce;
        assert Registered(c, annotations[k + 1]);
      }
      if ResolveGenerator(c, rest).None? && AnyRegisteredAs(c, rest, Noop) {
        var k :| 0 <= k < |rest| && Registered(c, rest[k]) && c.registry[rest[k].descriptor].kind == Noop;
        assert Registered(c, annotations[k + 1]);
      }
    }
  }

  /** A list that holds a registered annotation is resolved by it, whatever is appended. */
  lemma {:induction false} ResolveAppend(c: Configuration, a: seq<Annotation>, b: seq<Annotation>)
    requires !NoneRegistered(c, a)
    ensures ResolveGenerator(c, a + b) == ResolveGenerator(c, a)
  {
    if a[0].descriptor !in c.registry {
      assert (a + b)[1..] == a[1..] + b;
      assert !NoneRegistered(c, a[1..]) by {
        var k :| 0 <= k < |a| && Registered(c, a[k]);
        assert k > 0 && a[1..][k - 1] == a[k];
      }
      ResolveAppend(c, a[1..], b);
    }
  }

  // ---- Annotation getters (declaration annotations first, then type annotations) ----

  /** The annotations of the type annotations whose target the test keeps, in table order. */
  function Select(tas: seq<TypeAnnotation>, keep: TargetInfo -> bool): (r: seq<Annotation>)
    ensures |r| <= |tas|
    ensures forall a :: a in r <==> exists k :: 0 <= k < |tas| && keep(tas[k].target) && tas[k].annotation == a
  {
    if tas == [] then []
    else
      var rest := Select(tas[1..], keep);
      assert forall k :: 1 <= k < |tas| ==> tas[1..][k - 1] == tas[k];
      (if keep(tas[0].target) then [tas[0].annotation] else []) + rest
  }

  /** getMethodAnnotations: the method's declaration annotations. */
  function MethodAnnotations(m: MethodModel): seq<Annotation> {
    m.annotations
  }

  /** The declaration annotations of a parameter; an index past the table has none. */
  function DeclaredParamAnnotations(m: MethodModel, paramIndex: nat): seq<Annotation> {
    if paramIndex < |m.parameterAnnotations| then m.parameterAnnotations[paramIndex] else []
  }

  /** getMethodParamAnnotations: the parameter's declaration annotations, then its formal-parameter type annotations. */
  function MethodParamAnnotations(m: MethodModel, paramIndex: nat): seq<Annotation> {
    DeclaredParamAnnotations(m, paramIndex) + ParamTypeAnnotations(m, paramIndex)
  }

  /** The formal-parameter type annotations of a parameter. */
  function ParamTypeAnnotations(m: MethodModel, paramIndex: nat): seq<Annotation> {
    Select(m.typeAnnotations, (t: TargetInfo) => t.FormalParameterTarget? && t.index == paramIndex)
  }

  /** getMethodReturnAnnotations: every declaration annotation of the method, then its return type annotations. */
  function MethodReturnAnnotations(m: MethodModel): seq<Annotation> {
    m.annotations + Select(m.typeAnnotations, (t: TargetInfo) => t.MethodReturnTarget?)
  }

  /** getFieldAnnotations: the field's declaration annotations, then its field type annotations. */
  function FieldAnnotations(f: FieldModel): seq<Annotation> {
    f.annotations + Select(f.typeAnnotations, (t: TargetInfo) => t.FieldTarget?)
  }

  /** A local-variable type annotation, once for every entry of its table that names the slot. */
  function LocalSelect(tas: seq<TypeAnnotation>, slot: nat): (r: seq<Annotation>)
    ensures forall a :: a in r <==>
      exists k :: 0 <= k < |tas| && tas[k].target.LocalVarTarget? && slot in tas[k].target.slots && tas[k].annotation == a
  {
    if tas == [] then []
    else
      var rest := LocalSelect(tas[1..], slot);
      assert forall k :: 1 <= k < |tas| ==> tas[1..][k - 1] == tas[k];
      var t := tas[0].target;
      var block := if t.LocalVarTarget? then seq(multiset(t.slots)[slot], _ => tas[0].annotation) else [];
      assert forall a :: a in block <==> t.LocalVarTarget? && slot in t.slots && a == tas[0].annotation by {
        if t.LocalVarTarget? {
          assert slot in t.slots <==> multiset(t.slots)[slot] > 0;
          if multiset(t.slots)[slot] > 0 { assert block[0] == tas[0].annotation; }
        }
      }
      block + rest
  }

  /** Selecting from a table read in two parts keeps the parts in table order. */
  lemma {:induction false} SelectAppend(a: seq<TypeAnnotation>, b: seq<TypeAnnotation>, keep: TargetInfo -> bool)
    ensures Select(a + b, keep) == Select(a, keep) + Select(b, keep)
  {
    if a != [] {
      assert (a + b)[0] == a[0];
      assert (a + b)[1..] == a[1..] + b;
      SelectAppend(a[1..], b, keep);
    } else {
      assert a + b == b;
    }
  }

  /** One table entry contributes its annotation exactly when the test keeps its target. */
  lemma SelectSingle(t: TypeAnnotation, keep: TargetInfo -> bool)
    ensures Select([t], keep) == (if keep(t.target) then [t.annotation] else [])
  {
    assert [t][1..] == [];
  }

  /** Likewise for local-variable annotations. */
  lemma {:induction false} LocalSelectAppend(a: seq<TypeAnnotation>, b: seq<TypeAnnotation>, slot: nat)
    ensures LocalSelect(a + b, slot) == LocalSelect(a, slot) + LocalSelect(b, slot)
  {
    if a != [] {
      assert (a + b)[0] == a[0];
      assert (a + b)[1..] == a[1..] + b;
      LocalSelectAppend(a[1..], b, slot);
    } else {
      assert a + b == b;
    }
  }

  /** One local-variable entry contributes its annotation once for each of its ranges that uses the slot, and nothing else. */
  lemma LocalSelectSingle(t: TypeAnnotation, slot: nat)
    ensures |LocalSelect([t], slot)| == (if t.target.LocalVarTarget? then multiset(t.target.slots)[slot] else 0)
    ensures forall a :: a in LocalSelect([t], slot) ==> a == t.annotation
  {
    assert [t][1..] == [];
  }

  /** getLocalVariableAnnotations: the type annotations of the method's code that target the slot. */
  function LocalVariableAnnotations(m: MethodModel, slot: nat): seq<Annotation> {
    match CodeOf(m.elements)
    case Some(code) => LocalSelect(code.codeTypeAnnotations, slot)
    case None => []
  }

  /** A registered declaration annotation of a parameter outranks every type annotation on it. */
  lemma DeclarationFirst(c: Configuration, m: MethodModel, paramIndex: nat)
    requires !NoneRegistered(c, DeclaredParamAnnotations(m, paramIndex))
    ensures ResolveGenerator(c, MethodParamAnnotations(m, paramIndex)) == ResolveGenerator(c, DeclaredParamAnnotations(m, paramIndex))
  {
    ResolveAppend(c, DeclaredParamAnnotations(m, paramIndex), ParamTypeAnnotations(m, paramIndex));
  }

  // ---- Checks inside checked code ----

  /** The generator of an ENFORCE default, and nothing under a NOOP default. */
  function DefaultCheck(c: ValidConfiguration): (r: Option<CheckGenerator>)
    ensures r.Some? <==> c.defaultEntry.kind == Enforce
    ensures r.Some? ==> r == c.defaultEntry.verifier
  {
    EntryGenerator(c.defaultEntry)
  }

  /**
   * getParameterCheck: a reference parameter is checked as its annotations
   * resolve, blaming the caller. The first registered annotation decides (an
   * ENFORCE one checks with its generator, a NOOP one suppresses the check);
   * with none registered, an ENFORCE default checks the parameter implicitly.
   */
  function ParameterCheck(st: Strategy, m: MethodModel, paramIndex: nat, kind: TypeKind): (r: Option<CheckGenerator>)
    ensures kind != Reference ==> r.None?
    ensures r.Some? ==> r.value.attribution == Caller
    ensures r.Some? ==> AnyRegisteredAs(st.configuration, MethodParamAnnotations(m, paramIndex), Enforce) ||
                        (NoneRegistered(st.configuration, MethodParamAnnotations(m, paramIndex)) && st.configuration.defaultEntry.kind == Enforce)
  {
    if kind != Reference then None
    else
      var annos := MethodParamAnnotations(m, paramIndex);
      ResolveCases(st.configuration, annos);
      match ResolveGenerator(st.configuration, annos)
      case Some(g) => Some(WithAttribution(g, Caller))
      case None => None
  }

  /** getFieldWriteCheck: the boundary strategy never checks a write to a field of the class itself. */
  function FieldWriteCheck(st: Strategy, f: FieldModel, kind: TypeKind): Option<CheckGenerator> {
    None
  }

  /** getFieldReadCheck: a reference field read is checked as the field's annotations resolve. */
  function FieldReadCheck(st: Strategy, f: FieldModel, kind: TypeKind): (r: Option<CheckGenerator>)
    ensures kind != Reference ==> r.None?
    ensures r.Some? ==> AnyRegisteredAs(st.configuration, FieldAnnotations(f), Enforce) ||
                        (NoneRegistered(st.configuration, FieldAnnotations(f)) && st.configuration.defaultEntry.kind == Enforce)
    ensures kind == Reference && AnyRegisteredAs(st.configuration, FieldAnnotations(f), Noop) && !AnyRegisteredAs(st.configuration, FieldAnnotations(f), Enforce) ==> r.None?
    ensures kind == Reference ==> r == ResolveGenerator(st.configuration, FieldAnnotations(f))
    ensures var c, annos := st.configuration, FieldAnnotations(f);
      kind == Reference && NoneRegistered(c, annos) && c.defaultEntry.kind == Enforce ==>
        r.Some? && r == c.defaultEntry.verifier
  {
    if kind != Reference then None
    else
      ResolveCases(st.configuration, FieldAnnotations(f));
      ResolveGenerator(st.configuration, FieldAnnotations(f))
  }

  /** getReturnCheck: the boundary strategy never checks a return of checked code. */
  function ReturnCheck(st: Strategy, m: MethodModel): Option<CheckGenerator> {
    None
  }

  /** getLocalVariableWriteCheck: a reference store is checked as the slot's local-variable type annotations resolve. */
  function LocalVariableWriteCheck(st: Strategy, m: MethodModel, slot: nat, kind: TypeKind): (r: Option<CheckGenerator>)
    ensures kind != Reference ==> r.None?
    ensures r.Some? ==> AnyRegisteredAs(st.configuration, LocalVariableAnnotations(m, slot), Enforce) ||
                        (NoneRegistered(st.configuration, LocalVariableAnnotations(m, slot)) && st.configuration.defaultEntry.kind == Enforce)
    ensures kind == Reference ==> r == ResolveGenerator(st.configuration, LocalVariableAnnotations(m, slot))
    ensures var c, annos := st.configuration, LocalVariableAnnotations(m, slot);
      kind == Reference && NoneRegistered(c, annos) && c.defaultEntry.kind == Enforce ==>
        r.Some? && r == c.defaultEntry.verifier
  {
    if kind != Reference then None
    else
      ResolveCases(st.configuration, LocalVariableAnnotations(m, slot));
      ResolveGenerator(st.configuration, LocalVariableAnnotations(m, slot))
  }

  /**
   * The parameter check of a reference is its annotations' resolution blaming
   * the caller; with no annotation registered, an ENFORCE default checks the
   * parameter implicitly with the default generator.
   */
  lemma ParameterCheckResolves(st: Strategy, m: MethodModel, paramIndex: nat, kind: TypeKind)
    requires kind == Reference
    ensures ParameterCheck(st, m, paramIndex, kind) == CallerAttributed(ResolveGenerator(st.configuration, MethodParamAnnotations(m, paramIndex)))
    ensures var c := st.configuration;
      NoneRegistered(c, MethodParamAnnotations(m, paramIndex)) && c.defaultEntry.kind == Enforce ==>
        ParameterCheck(st, m, paramIndex, kind) == Some(WithAttribution(c.defaultEntry.verifier.value, Caller))
  {
  }

  /** The parameter check when an annotation is registered: the first registered one decides. */
  lemma ParameterCheckFirstRegistered(st: Strategy, m: MethodModel, paramIndex: nat, kind: TypeKind, k: nat)
    requires kind == Reference && FirstRegisteredAt(st.configuration, MethodParamAnnotations(m, paramIndex), k)
    ensures var e := st.configuration.registry[MethodParamAnnotations(m, paramIndex)[k].descriptor];
      (e.kind == Enforce ==> ParameterCheck(st, m, paramIndex, kind) == Some(WithAttribution(e.verifier.value, Caller))) &&
      (e.kind == Noop ==> ParameterCheck(st, m, paramIndex, kind).None?)
  {
    var e := st.configuration.registry[MethodParamAnnotations(m, paramIndex)[k].descriptor];
    assert RegisteredEntryShape(e);
  }

  /** The field read check when an annotation is registered: the first registered one decides. */
  lemma FieldReadCheckFirstRegistered(st: Strategy, f: FieldModel, kind: TypeKind, k: nat)
    requires kind == Reference && FirstRegisteredAt(st.configuration, FieldAnnotations(f), k)
    ensures var e := st.configuration.registry[FieldAnnotations(f)[k].descriptor];
      (e.kind == Enforce ==> FieldReadCheck(st, f, kind).Some? && FieldReadCheck(st, f, kind) == e.verifier) &&
      (e.kind == Noop ==> FieldReadCheck(st, f, kind).None?)
  {
    var e := st.configuration.registry[FieldAnnotations(f)[k].descriptor];
    assert RegisteredEntryShape(e);
  }

  /** The local store check when a slot annotation is registered: the first registered one decides. */
  lemma LocalVariableWriteCheckFirstRegistered(st: Strategy, m: MethodModel, slot: nat, kind: TypeKind, k: nat)
    requires kind == Reference && FirstRegisteredAt(st.configuration, LocalVariableAnnotations(m, slot), k)
    ensures var e := st.configuration.registry[LocalVariableAnnotations(m, slot)[k].descriptor];
      (e.kind == Enforce ==> LocalVariableWriteCheck(st, m, slot, kind).Some? && LocalVariableWriteCheck(st, m, slot, kind) == e.verifier) &&
      (e.kind == Noop ==> LocalVariableWriteCheck(st, m, slot, kind).None?)
  {
    var e := st.configuration.registry[LocalVariableAnnotations(m, slot)[k].descriptor];
    assert RegisteredEntryShape(e);
  }

  /** getArrayStoreCheck: annotations play no part; a reference component is checked under an ENFORCE default. */
  function ArrayStoreCheck(st: Strategy, componentType: TypeKind): (r: Option<CheckGenerator>)
    ensures r.Some? <==> componentType == Reference && st.configuration.defaultEntry.kind == Enforce
    ensures r.Some? ==> r == st.configuration.defaultEntry.verifier
  {
    if componentType == Reference then DefaultCheck(st.configuration) else None
  }

  /** getArrayLoadCheck: as for stores. */
  function ArrayLoadCheck(st: Strategy, componentType: TypeKind): (r: Option<CheckGenerator>)
    ensures r.Some? <==> componentType == Reference && st.configuration.defaultEntry.kind == Enforce
    ensures r.Some? ==> r == st.configuration.defaultEntry.verifier
  {
    if componentType == Reference then DefaultCheck(st.configuration) else None
  }

  /** Whether the safety filter puts an owner class (given by internal name) in checked scope. */
  predicate OwnerChecked(st: Strategy, owner: string) {
    st.safetyFilter(ClassInfo(Some(owner)))
  }

  /** getBoundaryCallCheck: the reference result of a call into an unchecked owner is checked under an ENFORCE default. */
  function BoundaryCallCheck(st: Strategy, owner: string, desc: MethodDesc): (r: Option<CheckGenerator>)
    ensures r.Some? <==> !OwnerChecked(st, owner) && KindOf(desc.ret) == Reference && st.configuration.defaultEntry.kind == Enforce
    ensures r.Some? ==> r == st.configuration.defaultEntry.verifier
  {
    if !OwnerChecked(st, owner) && KindOf(desc.ret) == Reference then DefaultCheck(st.configuration) else None
  }

  /** getBoundaryFieldReadCheck: a reference read of a field of an unchecked owner is checked under an ENFORCE default. */
  function BoundaryFieldReadCheck(st: Strategy, owner: string, fieldName: string, kind: TypeKind): (r: Option<CheckGenerator>)
    ensures r.Some? <==> !OwnerChecked(st, owner) && kind == Reference && st.configuration.defaultEntry.kind == Enforce
    ensures r.Some? ==> r == st.configuration.defaultEntry.verifier
  {
    if !OwnerChecked(st, owner) && kind == Reference then DefaultCheck(st.configuration) else None
  }

  // ---- Bridges ----

  /** A parameter that makes a bridge worth generating: any ENFORCE annotation, or an unannotated reference under an ENFORCE default. */
  predicate ParamWantsBridge(c: Configuration, m: MethodModel, i: nat)
    requires i < |m.desc.params|
  {
    var annos := MethodParamAnnotations(m, i);
    AnyRegisteredAs(c, annos, Enforce) ||
    (KindOf(m.desc.params[i]) == Reference && !AnyRegisteredAs(c, annos, Noop) && c.defaultEntry.kind == Enforce)
  }

  /** A reference return that makes a bridge worth generating, by the same rule. */
  predicate ReturnWantsBridge(c: Configuration, m: MethodModel) {
    var annos := MethodReturnAnnotations(m);
    KindOf(m.desc.ret) == Reference &&
    (AnyRegisteredAs(c, annos, Enforce) || (!AnyRegisteredAs(c, annos, Noop) && c.defaultEntry.kind == Enforce))
  }

  /** A bridge is wanted for a method not declared by java/lang/Object when a parameter or the return asks for one. */
  predicate BridgeWanted(c: Configuration, pm: ParentMethod) {
    pm.owner.thisClass != OBJECT_INTERNAL &&
    ((exists i :: 0 <= i < |pm.methodModel.desc.params| && ParamWantsBridge(c, pm.methodModel, i)) ||
     ReturnWantsBridge(c, pm.methodModel))
  }

  /** The flag loop over an annotation list: whether some annotation is registered NOOP, and whether some is registered ENFORCE. */
  method ScanAnnotations(c: Configuration, annotations: seq<Annotation>) returns (explicitNoop: bool, explicitEnforce: bool)
    ensures explicitNoop == AnyRegisteredAs(c, annotations, Noop)
    ensures explicitEnforce == AnyRegisteredAs(c, annotations, Enforce)
  {
    explicitNoop, explicitEnforce := false, false;
    for k := 0 to |annotations|
      invariant explicitNoop == AnyRegisteredAs(c, annotations[..k], Noop)
      invariant explicitEnforce == AnyRegisteredAs(c, annotations[..k], Enforce)
    {
      assert forall j :: 0 <= j < k ==> annotations[..k + 1][j] == annotations[..k][j];
      assert annotations[..k + 1][k] == annotations[k];
      var entry := FindEntry(c, annotations[k].descriptor);
      if entry.Some? {
        if entry.value.kind == Enforce {
          explicitEnforce := true;
        }
        if entry.value.kind == Noop {
          explicitNoop := true;
        }
      }
    }
    assert annotations[..|annotations|] == annotations;
  }

  /** shouldGenerateBridge: parameters in order, then the return, with an early true. */
  method ShouldGenerateBridge(st: Strategy, pm: ParentMethod) returns (r: bool)
    ensures r == BridgeWanted(st.configuration, pm)
  {
    var c := st.configuration;
    if pm.owner.thisClass == OBJECT_INTERNAL {
      return false;
    }
    var m := pm.methodModel;
    var paramTypes := m.desc.params;
    for i := 0 to |paramTypes|
      invariant forall j :: 0 <= j < i ==> !ParamWantsBridge(c, m, j)
    {
      var explicitNoop, explicitEnforce := ScanAnnotations(c, MethodParamAnnotations(m, i));
      if explicitEnforce {
        assert ParamWantsBridge(c, m, i);
        return true;
      }
      if KindOf(paramTypes[i]) == Reference && !explicitNoop && c.defaultEntry.kind == Enforce {
        assert ParamWantsBridge(c, m, i);
        return true;
      }
    }
    if KindOf(m.desc.ret) == Reference {
      var explicitNoop, explicitEnforce := ScanAnnotations(c, MethodReturnAnnotations(m));
      if explicitEnforce {
        return true;
      }
      if !explicitNoop && c.defaultEntry.kind == Enforce {
        return true;
      }
    }
    return false;
  }

  /** A resolved generator re-attributed to the caller. */
  function CallerAttributed(g: Option<CheckGenerator>): Option<CheckGenerator> {
    match g
    case Some(v) => Some(WithAttribution(v, Caller))
    case None => None
  }

  /**
   * getBridgeParameterCheck as written: the resolution with CALLER attribution,
   * and no test of the parameter's type; failing that, an unannotated reference
   * parameter under an ENFORCE default gets the default generator.
   */
  function BridgeParameterCheckOf(c: ValidConfiguration, m: MethodModel, i: nat): Option<CheckGenerator>
    requires i < |m.desc.params|
  {
    var annos := MethodParamAnnotations(m, i);
    var g := ResolveGenerator(c, annos);
    if g.Some? then CallerAttributed(g)
    else if KindOf(m.desc.params[i]) == Reference && !AnyRegisteredAs(c, annos, Noop) && c.defaultEntry.kind == Enforce
    then Some(WithAttribution(c.defaultEntry.verifier.value, Caller))
    else None
  }

  /** getBridgeReturnCheck as written: none for a non-reference return, else as for a parameter. */
  function BridgeReturnCheckOf(c: ValidConfiguration, m: MethodModel): Option<CheckGenerator> {
    var annos := MethodReturnAnnotations(m);
    var g := ResolveGenerator(c, annos);
    if KindOf(m.desc.ret) != Reference then None
    else if g.Some? then CallerAttributed(g)
    else if !AnyRegisteredAs(c, annos, Noop) && c.defaultEntry.kind == Enforce
    then Some(WithAttribution(c.defaultEntry.verifier.value, Caller))
    else None
  }

  method BridgeParameterCheck(st: Strategy, pm: ParentMethod, paramIndex: nat) returns (r: Option<CheckGenerator>)
    requires paramIndex < |pm.methodModel.desc.params|
    ensures r == BridgeParameterCheckOf(st.configuration, pm.methodModel, paramIndex)
  {
    var c := st.configuration;
    var m := pm.methodModel;
    var annos := MethodParamAnnotations(m, paramIndex);
    var generator := ResolveGenerator(c, annos);
    if generator.Some? {
      return Some(WithAttribution(generator.value, Caller));
    }
    if KindOf(m.desc.params[paramIndex]) == Reference {
      var isExplicitNoop, _ := ScanAnnotations(c, annos);
      if !isExplicitNoop && c.defaultEntry.kind == Enforce {
        return Some(WithAttribution(c.defaultEntry.verifier.value, Caller));
      }
    }
    return None;
  }

  method BridgeReturnCheck(st: Strategy, pm: ParentMethod) returns (r: Option<CheckGenerator>)
    ensures r == BridgeReturnCheckOf(st.configuration, pm.methodModel)
  {
    var c := st.configuration;
    var m := pm.methodModel;
    if KindOf(m.desc.ret) != Reference {
      return None;
    }
    var annos := MethodReturnAnnotations(m);
    var generator := ResolveGenerator(c, annos);
    if generator.Some? {
      return Some(WithAttribution(generator.value, Caller));
    }
    var isExplicitNoop, _ := ScanAnnotations(c, annos);
    if !isExplicitNoop && c.defaultEntry.kind == Enforce {
      return Some(WithAttribution(c.defaultEntry.verifier.value, Caller));
    }
    return None;
  }

  /**
   * The default fallback of getBridgeParameterCheck never fires: under a
   * well-formed configuration the check is exactly the resolution with CALLER
   * attribution, whatever the parameter's type.
   */
  lemma BridgeParameterCheckIsResolution(c: ValidConfiguration, m: MethodModel, i: nat)
    requires i < |m.desc.params|
    ensures BridgeParameterCheckOf(c, m, i) == CallerAttributed(ResolveGenerator(c, MethodParamAnnotations(m, i)))
  {
    ResolveCases(c, MethodParamAnnotations(m, i));
  }

  /** Likewise for the return check of a bridge with a reference return. */
  lemma BridgeReturnCheckIsResolution(c: ValidConfiguration, m: MethodModel)
    requires KindOf(m.desc.ret) == Reference
    ensures BridgeReturnCheckOf(c, m) == CallerAttributed(ResolveGenerator(c, MethodReturnAnnotations(m)))
  {
    ResolveCases(c, MethodReturnAnnotations(m));
  }

  /**
   * When no bridge is wanted, no reference parameter and no return of the
   * method would be checked by one.
   */
  lemma UnwantedBridgeChecksNoReference(c: ValidConfiguration, pm: ParentMethod)
    requires pm.owner.thisClass != OBJECT_INTERNAL && !BridgeWanted(c, pm)
    ensures forall i :: 0 <= i < |pm.methodModel.desc.params| && KindOf(pm.methodModel.desc.params[i]) == Reference ==>
      BridgeParameterCheckOf(c, pm.methodModel, i).None?
    ensures BridgeReturnCheckOf(c, pm.methodModel).None?
  {
    var m := pm.methodModel;
    forall i | 0 <= i < |m.desc.params| && KindOf(m.desc.params[i]) == Reference
      ensures BridgeParameterCheckOf(c, m, i).None?
    {
      assert !ParamWantsBridge(c, m, i);
      ResolveCases(c, MethodParamAnnotations(m, i));
      if NoneRegistered(c, MethodParamAnnotations(m, i)) {
        NoneRegisteredHasNoKind(c, MethodParamAnnotations(m, i));
      }
    }
    ResolveCases(c, MethodReturnAnnotations(m));
    if NoneRegistered(c, MethodReturnAnnotations(m)) {
      NoneRegisteredHasNoKind(c, MethodReturnAnnotations(m));
    }
  }

  lemma NoneRegisteredHasNoKind(c: Configuration, annotations: seq<Annotation>)
    requires NoneRegistered(c, annotations)
    ensures !AnyRegisteredAs(c, annotations, Noop) && !AnyRegisteredAs(c, annotations, Enforce)
  {
  }

  /**
   * A primitive parameter with no registered annotation still gets the default
   * generator under an ENFORCE default: the bridge check has no type test.
   */
  lemma PrimitiveBridgeParameterChecked(c: ValidConfiguration, m: MethodModel, i: nat)
    requires i < |m.desc.params| && KindOf(m.desc.params[i]) != Reference
    requires NoneRegistered(c, MethodParamAnnotations(m, i)) && c.defaultEntry.kind == Enforce
    ensures BridgeParameterCheckOf(c, m, i) == Some(WithAttribution(c.defaultEntry.verifier.value, Caller))
  {
  }

  // ---- The strict variant ----

  /** isClassCheckedModel: the class carries an @AnnotatedFor annotation, whatever systems it lists. */
  function CarriesAnnotatedFor(annotations: seq<Annotation>): (r: bool)
    ensures r <==> exists a :: a in annotations && a.descriptor == AnnotatedForFilter.ANNOTATED_FOR_DESC
    ensures forall ts :: AnnotatedForFilter.AnyAnnotationMarks(annotations, ts) ==> r
  {
    if annotations == [] then false
    else
      assert annotations == [annotations[0]] + annotations[1..];
      annotations[0].descriptor == AnnotatedForFilter.ANNOTATED_FOR_DESC || CarriesAnnotatedFor(annotations[1..])
  }

  predicate IsClassCheckedModel(model: ClassModel) {
    CarriesAnnotatedFor(model.annotations)
  }

  /** isClassChecked: the safety filter accepts the owner, or its class file can be loaded and carries @AnnotatedFor. */
  predicate IsClassChecked(st: Strategy, internalName: string)
    requires st.StrictBoundary?
  {
    OwnerChecked(st, internalName) ||
    (Lookup(st.classes, internalName).Some? && IsClassCheckedModel(Lookup(st.classes, internalName).value))
  }

  /** isFieldOptOut: the owner loads and some field of that name has a NOOP-registered annotation. */
  predicate IsFieldOptOut(st: Strategy, owner: string, fieldName: string)
    requires st.StrictBoundary?
  {
    match Lookup(st.classes, owner)
    case None => false
    case Some(model) =>
      exists k :: 0 <= k < |model.fields| && model.fields[k].name == fieldName &&
        AnyRegisteredAs(st.configuration, FieldAnnotations(model.fields[k]), Noop)
  }

  /**
   * getBoundaryFieldWriteCheck: never for the boundary strategy; for the strict
   * one, the default generator exactly when the owner is checked, the value is a
   * reference, the field is not opted out and the default is ENFORCE.
   */
  function BoundaryFieldWriteCheck(st: Strategy, owner: string, fieldName: string, kind: TypeKind): (r: Option<CheckGenerator>)
    ensures st.Boundary? ==> r.None?
    ensures st.StrictBoundary? ==>
      (r.Some? <==> IsClassChecked(st, owner) && kind == Reference && !IsFieldOptOut(st, owner, fieldName) &&
                    st.configuration.defaultEntry.kind == Enforce)
    ensures r.Some? ==> r == st.configuration.defaultEntry.verifier
  {
    match st
    case Boundary(_, _) => None
    case StrictBoundary(c, _, _) =>
      if IsClassChecked(st, owner) && kind == Reference && !IsFieldOptOut(st, owner, fieldName) then DefaultCheck(c)
      else None
  }

  /** The verdict of one checked ancestor's method loop. */
  datatype Decision = Decided(check: Option<CheckGenerator>) | Undecided

  /** p has the name and descriptor of m, so m overrides it. */
  predicate SameSignature(p: MethodModel, m: MethodModel) {
    p.name == m.name && MethodDescriptorString(p.desc) == MethodDescriptorString(m.desc)
  }

  /** A NOOP-registered annotation on the method or on its return type. */
  predicate NoopMarked(c: Configuration, p: MethodModel) {
    AnyRegisteredAs(c, MethodAnnotations(p), Noop) || AnyRegisteredAs(c, MethodReturnAnnotations(p), Noop)
  }

  /** An overridden method that ends the search: NOOP-marked, or returning a reference under an ENFORCE default. */
  predicate Decisive(c: Configuration, p: MethodModel) {
    NoopMarked(c, p) || (KindOf(p.desc.ret) == Reference && c.defaultEntry.kind == Enforce)
  }

  /** methods[k] is the first method overridden by m that ends the search. */
  predicate FirstDecisiveAt(c: Configuration, methods: seq<MethodModel>, m: MethodModel, k: int) {
    0 <= k < |methods| && SameSignature(methods[k], m) && Decisive(c, methods[k]) &&
    forall j :: 0 <= j < k ==> !(SameSignature(methods[j], m) && Decisive(c, methods[j]))
  }

  /**
   * The methods of a checked ancestor, in order: one with the same name and
   * descriptor and a NOOP-registered annotation (on the method or its return)
   * decides "no check"; one with a reference return under an ENFORCE default
   * decides the default generator; any other leaves the search going.
   */
  function MatchOverridden(c: ValidConfiguration, methods: seq<MethodModel>, m: MethodModel): (d: Decision)
    ensures d.Decided? && d.check.Some? ==> c.defaultEntry.kind == Enforce && d.check == c.defaultEntry.verifier
    ensures d.Decided? ==> exists p :: p in methods && p.name == m.name && MethodDescriptorString(p.desc) == MethodDescriptorString(m.desc)
  {
    if methods == [] then Undecided
    else
      var p := methods[0];
      assert methods == [p] + methods[1..];
      if SameSignature(p, m) then
        if AnyRegisteredAs(c, MethodAnnotations(p), Noop) then Decided(None)
        else if AnyRegisteredAs(c, MethodReturnAnnotations(p), Noop) then Decided(None)
        else if KindOf(p.desc.ret) == Reference && c.defaultEntry.kind == Enforce then Decided(DefaultCheck(c))
        else MatchOverridden(c, methods[1..], m)
      else MatchOverridden(c, methods[1..], m)
  }

  /**
   * The three rules of the method loop, keyed on the first overridden method
   * that ends the search: a NOOP mark decides "no check", otherwise a
   * reference return under an ENFORCE default decides the default generator;
   * with no such method the search goes on to the next ancestor.
   */
  lemma {:induction false} MatchOverriddenRules(c: ValidConfiguration, methods: seq<MethodModel>, m: MethodModel)
    ensures forall k :: FirstDecisiveAt(c, methods, m, k) && NoopMarked(c, methods[k]) ==> MatchOverridden(c, methods, m) == Decided(None)
    ensures forall k :: FirstDecisiveAt(c, methods, m, k) && !NoopMarked(c, methods[k]) ==>
      MatchOverridden(c, methods, m) == Decided(c.defaultEntry.verifier) && c.defaultEntry.verifier.Some?
  {
    if methods != [] {
      var p := methods[0];
      var rest := methods[1..];
      if !(SameSignature(p, m) && Decisive(c, p)) {
        MatchOverriddenRules(c, rest, m);
        assert forall k :: 1 <= k < |methods| ==> rest[k - 1] == methods[k];
        assert forall k :: FirstDecisiveAt(c, methods, m, k) ==> k >= 1 && FirstDecisiveAt(c, rest, m, k - 1);
      } else {
        assert FirstDecisiveAt(c, methods, m, 0);
        assert forall k :: FirstDecisiveAt(c, methods, m, k) ==> k == 0;
      }
    }
  }

  /** The search goes on past this ancestor exactly when no method m overrides ends it. */
  lemma {:induction false} MatchOverriddenUndecided(c: ValidConfiguration, methods: seq<MethodModel>, m: MethodModel)
    ensures MatchOverridden(c, methods, m).Undecided? <==>
      forall k :: 0 <= k < |methods| && SameSignature(methods[k], m) ==> !Decisive(c, methods[k])
  {
    if methods != [] {
      var rest := methods[1..];
      if !(SameSignature(methods[0], m) && Decisive(c, methods[0])) {
        MatchOverriddenUndecided(c, rest, m);
        assert forall k :: 1 <= k < |methods| ==> rest[k - 1] == methods[k];
      }
    }
  }

  /** The ancestor walk from a loaded class ends (at a missing class, Object or a class without a superclass) within fuel steps. */
  predicate ChainEnds(classes: ClassMap, parent: Option<ClassModel>, fuel: nat)
    decreases fuel
  {
    parent.None? || parent.value.thisClass == OBJECT_INTERNAL || parent.value.superclass.None? ||
    (fuel > 0 && ChainEnds(classes, Lookup(classes, parent.value.superclass.value), fuel - 1))
  }

  /** The classes the override walk visits, nearest first. */
  function Chain(classes: ClassMap, parent: Option<ClassModel>, fuel: nat): seq<ClassModel>
    requires ChainEnds(classes, parent, fuel)
    decreases fuel
  {
    match parent
    case None => []
    case Some(p) =>
      if p.thisClass == OBJECT_INTERNAL then []
      else if p.superclass.None? then [p]
      else [p] + Chain(classes, Lookup(classes, p.superclass.value), fuel - 1)
  }

  /** What one visited ancestor decides: only a checked one's methods are looked at. */
  function AncestorDecision(c: ValidConfiguration, p: ClassModel, m: MethodModel): Decision {
    if IsClassCheckedModel(p) then MatchOverridden(c, p.methods, m) else Undecided
  }

  /** The walk of getUncheckedOverrideReturnCheck from a loaded ancestor upwards. */
  function OverrideWalk(c: ValidConfiguration, classes: ClassMap, parent: Option<ClassModel>, m: MethodModel, fuel: nat): (r: Option<CheckGenerator>)
    requires ChainEnds(classes, parent, fuel)
    ensures r.Some? ==> c.defaultEntry.kind == Enforce && r == c.defaultEntry.verifier
    decreases fuel
  {
    match parent
    case None => None
    case Some(p) =>
      if p.thisClass == OBJECT_INTERNAL then None
      else
        var d := AncestorDecision(c, p, m);
        if d.Decided? then d.check
        else if p.superclass.None? then None
        else OverrideWalk(c, classes, Lookup(classes, p.superclass.value), m, fuel - 1)
  }

  /** The walk terminates: the strategy is not strict, there is no superclass, or the chain above it ends. */
  predicate OverrideWalkEnds(st: Strategy, classModel: ClassModel) {
    st.Boundary? || classModel.superclass.None? ||
    ChainEnds(st.classes, Lookup(st.classes, classModel.superclass.value), |st.classes|)
  }

  /** getUncheckedOverrideReturnCheck: none for the boundary strategy, for a missing or Object superclass, else the walk. */
  function OverrideReturnCheckOf(st: Strategy, classModel: ClassModel, m: MethodModel): Option<CheckGenerator>
    requires OverrideWalkEnds(st, classModel)
  {
    match st
    case Boundary(_, _) => None
    case StrictBoundary(c, _, classes) =>
      match classModel.superclass
      case None => None
      case Some(superName) =>
        if superName == OBJECT_INTERNAL then None
        else OverrideWalk(c, classes, Lookup(classes, superName), m, |classes|)
  }

  /** The inner for loop: the decision of the first matching method that decides. */
  method MatchOverriddenLoop(c: ValidConfiguration, methods: seq<MethodModel>, m: MethodModel) returns (d: Decision)
    ensures d == MatchOverridden(c, methods, m)
  {
    var j := 0;
    while j < |methods|
      invariant 0 <= j <= |methods|
      invariant MatchOverridden(c, methods, m) == MatchOverridden(c, methods[j..], m)
    {
      var p := methods[j];
      assert methods[j..][1..] == methods[j + 1..];
      if p.name == m.name && MethodDescriptorString(p.desc) == MethodDescriptorString(m.desc) {
        var methodNoop, _ := ScanAnnotations(c, MethodAnnotations(p));
        if methodNoop {
          return Decided(None);
        }
        var returnNoop, _ := ScanAnnotations(c, MethodReturnAnnotations(p));
        if returnNoop {
          return Decided(None);
        }
        if KindOf(p.desc.ret) == Reference && c.defaultEntry.kind == Enforce {
          return Decided(c.defaultEntry.verifier);
        }
      }
      j := j + 1;
    }
    return Undecided;
  }

  /** getUncheckedOverrideReturnCheck, with the while loop over the loaded ancestors. */
  method UncheckedOverrideReturnCheck(st: Strategy, classModel: ClassModel, m: MethodModel) returns (r: Option<CheckGenerator>)
    requires OverrideWalkEnds(st, classModel)
    ensures r == OverrideReturnCheckOf(st, classModel, m)
  {
    if st.Boundary? {
      return None;
    }
    var c, classes := st.configuration, st.classes;
    if classModel.superclass.None? || classModel.superclass.value == OBJECT_INTERNAL {
      return None;
    }
    var parentModel := Lookup(classes, classModel.superclass.value);
    ghost var fuel: nat := |classes|;
    while parentModel.Some? && parentModel.value.thisClass != OBJECT_INTERNAL
      invariant ChainEnds(classes, parentModel, fuel)
      invariant OverrideReturnCheckOf(st, classModel, m) == OverrideWalk(c, classes, parentModel, m, fuel)
      decreases fuel
    {
      var p := parentModel.value;
      if IsClassCheckedModel(p) {
        var d := MatchOverriddenLoop(c, p.methods, m);
        if d.Decided? {
          return d.check;
        }
      }
      if p.superclass.None? {
        break;
      }
      parentModel := Lookup(classes, p.superclass.value);
      fuel := fuel - 1;
    }
    return None;
  }

  /** An override whose visited ancestors are all unchecked gets no return check. */
  lemma {:induction false} UncheckedChainNoCheck(c: ValidConfiguration, classes: ClassMap, parent: Option<ClassModel>, m: MethodModel, fuel: nat)
    requires ChainEnds(classes, parent, fuel)
    requires forall p :: p in Chain(classes, parent, fuel) ==> !IsClassCheckedModel(p)
    ensures OverrideWalk(c, classes, parent, m, fuel).None?
    decreases fuel
  {
    if parent.Some? && parent.value.thisClass != OBJECT_INTERNAL && parent.value.superclass.Some? {
      var p := parent.value;
      assert p in Chain(classes, parent, fuel);
      UncheckedChainNoCheck(c, classes, Lookup(classes, p.superclass.value), m, fuel - 1);
    }
  }

  /** The first class of a non-empty chain is the loaded, non-Object parent; the rest is the chain above it. */
  lemma ChainHead(classes: ClassMap, parent: Option<ClassModel>, fuel: nat)
    requires ChainEnds(classes, parent, fuel) && |Chain(classes, parent, fuel)| > 0
    ensures parent.Some? && parent.value.thisClass != OBJECT_INTERNAL
    ensures Chain(classes, parent, fuel)[0] == parent.value
    ensures |Chain(classes, parent, fuel)| > 1 ==>
      parent.value.superclass.Some? && fuel > 0 &&
      ChainEnds(classes, Lookup(classes, parent.value.superclass.value), fuel - 1) &&
      Chain(classes, parent, fuel)[1..] == Chain(classes, Lookup(classes, parent.value.superclass.value), fuel - 1)
  {
  }

  /** The walk answers with the decision of the nearest visited ancestor that decides. */
  lemma {:induction false} WalkStopsAtFirstDecision(c: ValidConfiguration, classes: ClassMap, parent: Option<ClassModel>,
                                                    m: MethodModel, fuel: nat, i: nat)
    requires ChainEnds(classes, parent, fuel) && i < |Chain(classes, parent, fuel)|
    requires forall j :: 0 <= j < i ==> AncestorDecision(c, Chain(classes, parent, fuel)[j], m).Undecided?
    requires AncestorDecision(c, Chain(classes, parent, fuel)[i], m).Decided?
    ensures OverrideWalk(c, classes, parent, m, fuel) == AncestorDecision(c, Chain(classes, parent, fuel)[i], m).check
    decreases fuel
  {
    var chain := Chain(classes, parent, fuel);
    ChainHead(classes, parent, fuel);
    var p := parent.value;
    if i > 0 {
      var next := Lookup(classes, p.superclass.value);
      var rest := Chain(classes, next, fuel - 1);
      assert AncestorDecision(c, p, m).Undecided?;
      assert forall j :: 0 <= j < i - 1 ==> rest[j] == chain[j + 1];
      assert rest[i - 1] == chain[i];
      WalkStopsAtFirstDecision(c, classes, next, m, fuel - 1, i - 1);
    }
  }

  /**
   * The walk reaches a checked ancestor, no nearer ancestor having decided,
   * whose first method that m overrides and that ends the search carries no
   * NOOP mark: the override's return is checked with the default generator.
   * With a NOOP mark it is not checked.
   */
  lemma CheckedAncestorDecides(c: ValidConfiguration, classes: ClassMap, parent: Option<ClassModel>,
                               m: MethodModel, fuel: nat, i: nat, k: nat)
    requires ChainEnds(classes, parent, fuel) && i < |Chain(classes, parent, fuel)|
    requires forall j :: 0 <= j < i ==> AncestorDecision(c, Chain(classes, parent, fuel)[j], m).Undecided?
    requires IsClassCheckedModel(Chain(classes, parent, fuel)[i])
    requires FirstDecisiveAt(c, Chain(classes, parent, fuel)[i].methods, m, k)
    ensures !NoopMarked(c, Chain(classes, parent, fuel)[i].methods[k]) ==>
      OverrideWalk(c, classes, parent, m, fuel) == c.defaultEntry.verifier && c.defaultEntry.verifier.Some?
    ensures NoopMarked(c, Chain(classes, parent, fuel)[i].methods[k]) ==> OverrideWalk(c, classes, parent, m, fuel).None?
  {
    var p := Chain(classes, parent, fuel)[i];
    MatchOverriddenRules(c, p.methods, m);
    WalkStopsAtFirstDecision(c, classes, parent, m, fuel, i);
  }

  /** No visited ancestor decides: the override's return is not checked. */
  lemma {:induction false} UndecidedChainNoCheck(c: ValidConfiguration, classes: ClassMap, parent: Option<ClassModel>, m: MethodModel, fuel: nat)
    requires ChainEnds(classes, parent, fuel)
    requires forall p :: p in Chain(classes, parent, fuel) ==> AncestorDecision(c, p, m).Undecided?
    ensures OverrideWalk(c, classes, parent, m, fuel).None?
    decreases fuel
  {
    if parent.Some? && parent.value.thisClass != OBJECT_INTERNAL && parent.value.superclass.Some? {
      var p := parent.value;
      assert p in Chain(classes, parent, fuel);
      UndecidedChainNoCheck(c, classes, Lookup(classes, p.superclass.value), m, fuel - 1);
    }
  }
}
