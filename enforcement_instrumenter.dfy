/**
 * The enforcement instrumenter: the per-class rewrite (each method with code
 * rewritten by a fresh code transform, everything else copied) and, for a
 * class in checked scope, the bridge methods appended at the end. A bridge
 * overrides a method the class inherits from an unchecked ancestor without
 * overriding it: it checks the arguments, forwards to the parent with
 * invokespecial, checks the result and returns it.
 */
module EnforcementInstrumenter {
  import opened Wrappers
  import opened JavaString
  import opened ClassFile
  import opened OperandStack
  import opened NullnessCheckGenerator
  import opened Configuration
  import opened Filters
  import opened HierarchyResolver
  import opened BoundaryStrategy
  import opened EnforcementTransform

  // ---- Typed loads and returns ----

  /** loadLocal: the load of a kind's opcode family (iload for the int-like kinds); void has none. */
  function LoadLocal(kind: TypeKind, slot: nat): (r: Result<Instr>)
    ensures r.Raised? <==> kind == Void
    ensures r.Raised? ==> r.error == IllegalArgument("Unknown type")
    ensures r.Ok? ==> r.value.Load? && r.value.slot == slot
  {
    match kind
    case Int | Byte | Char | Short | Boolean => Ok(Load(Int, slot))
    case Long => Ok(Load(Long, slot))
    case Float => Ok(Load(Float, slot))
    case Double => Ok(Load(Double, slot))
    case Reference => Ok(Load(Reference, slot))
    case Void => Raised(IllegalArgument("Unknown type"))
  }

  /** The load pushes the value held in the slot, with the kind the slot holds. */
  lemma LoadLocalPushes(kind: TypeKind, slot: nat, locals: seq<TypeKind>, s: seq<Value>)
    requires kind != Void && slot + SlotSize(kind) <= |locals|
    requires forall j :: slot <= j < slot + SlotSize(kind) ==> locals[j] == StackKind(kind)
    ensures LoadLocal(kind, slot).Ok?
    ensures Exec([LoadLocal(kind, slot).value], locals, s) == Some(s + Entries(kind, slot))
  {
    ExecSingle(LoadLocal(kind, slot).value, locals, s);
  }

  /**
   * returnResult, on the descriptor string of the return type: V gives
   * return, I Z B S C give ireturn, J lreturn, F freturn, D dreturn and any
   * other descriptor areturn. That is the return of the return type's stack kind.
   */
  function ReturnResult(ret: ClassDesc): (r: Instr)
    ensures r == Return(StackKind(KindOf(ret)))
  {
    var d := DescriptorString(ret);
    DescriptorLength(ret);
    if d == "V" then Return(Void)
    else if d == "I" || d == "Z" || d == "B" || d == "S" || d == "C" then Return(Int)
    else if d == "J" then Return(Long)
    else if d == "F" then Return(Float)
    else if d == "D" then Return(Double)
    else Return(Reference)
  }

  /** Class and array descriptors take at least two characters; the others are their one letter. */
  lemma DescriptorLength(d: ClassDesc)
    ensures d.L? || d.Arr? <==> |DescriptorString(d)| >= 2
    ensures d.V? ==> DescriptorString(d) == "V"
  {
    if d.Arr? {
      DescriptorLength(d.component);
    }
  }

  // ---- The bridge body ----

  /** The bridge's own header: PUBLIC, with the inherited method's name and descriptor, and no attributes yet. */
  function BridgeHeader(m: MethodModel): (r: MethodModel)
    ensures r.name == m.name && r.desc == m.desc && r.flags == ACC_PUBLIC
    ensures !IsStatic(r)
  {
    MethodModel(m.name, m.desc, ACC_PUBLIC, [], [], [], [])
  }

  /** The check of parameter i: aload of its slot (whatever its type), then the check. */
  function BridgeParamCheckCode(c: ValidConfiguration, m: MethodModel, i: nat): seq<Instr>
    requires i < |m.desc.params|
  {
    match BridgeParameterCheckOf(c, m, i)
    case None => []
    case Some(g) =>
      [Load(Reference, ParamSlot(BridgeHeader(m), i))] +
      GenerateCheck(g, KindOf(m.desc.params[i]), "Parameter " + NatToString(i) + " in inherited method " + m.name)
  }

  /** The check of each parameter, as a function of its index. */
  function BridgeCheckPiece(c: ValidConfiguration, m: MethodModel): nat -> seq<Instr> {
    (i: nat) => if i < |m.desc.params| then BridgeParamCheckCode(c, m, i) else []
  }

  /** The checks of the first n parameters, in declaration order. */
  function BridgeParamChecks(c: ValidConfiguration, m: MethodModel, n: nat): seq<Instr>
    requires n <= |m.desc.params|
  {
    Joined(BridgeCheckPiece(c, m), n)
  }

  /** The typed reloads of the first n parameters from their slots; the first void parameter raises. */
  function ArgumentLoads(m: MethodModel, n: nat): Result<seq<Instr>>
    requires n <= |m.desc.params|
  {
    if n == 0 then Ok([])
    else match ArgumentLoads(m, n - 1)
      case Raised(e) => Raised(e)
      case Ok(loads) =>
        match LoadLocal(KindOf(m.desc.params[n - 1]), ParamSlot(BridgeHeader(m), n - 1))
        case Raised(e) => Raised(e)
        case Ok(ins) => Ok(loads + [ins])
  }

  /** ClassDesc.of on the owner's binary name: the internal name with '/' turned to '.' and back. */
  function ParentOwner(pm: ParentMethod): string {
    ToSlashes(ToDots(pm.owner.thisClass))
  }

  function BridgeReturnCheckCode(c: ValidConfiguration, m: MethodModel): seq<Instr> {
    DupCheck(BridgeReturnCheckOf(c, m), Reference, "Return value of inherited method " + m.name)
  }

  /** The bridge's code: parameter checks, aload 0 and the reloads, invokespecial, the return check and the typed return. */
  function BridgeCode(c: ValidConfiguration, pm: ParentMethod): Result<seq<Instr>> {
    var m := pm.methodModel;
    match ArgumentLoads(m, |m.desc.params|)
    case Raised(e) => Raised(e)
    case Ok(loads) =>
      Ok(BridgeParamChecks(c, m, |m.desc.params|) + [Load(Reference, 0)] + loads +
         [Invoke(InvokeSpecial, ParentOwner(pm), m.name, m.desc)] +
         BridgeReturnCheckCode(c, m) + [ReturnResult(m.desc.ret)])
  }

  /** The bridge method emitted for a parent method. */
  function Bridge(c: ValidConfiguration, pm: ParentMethod): Result<MethodModel> {
    match BridgeCode(c, pm)
    case Raised(e) => Raised(e)
    case Ok(code) => Ok(BridgeHeader(pm.methodModel).(elements := [CodeAttribute(Lift(code), [])]))
  }

  /** The body of step 1 of emitBridge: the check of one parameter, loaded from the running slot index. */
  method EmitParameterCheck(st: Strategy, pm: ParentMethod, i: nat, slotIndex: nat) returns (code: seq<Instr>)
    requires i < |pm.methodModel.desc.params|
    requires slotIndex == ParamSlot(BridgeHeader(pm.methodModel), i)
    ensures code == BridgeParamCheckCode(st.configuration, pm.methodModel, i)
  {
    var m := pm.methodModel;
    var target := BridgeParameterCheck(st, pm, i);
    code := [];
    if target.Some? {
      code := [Load(Reference, slotIndex)] +
        GenerateCheck(target.value, KindOf(m.desc.params[i]), "Parameter " + NatToString(i) + " in inherited method " + m.name);
    }
  }

  /** Step 1 of emitBridge: the parameter checks, with the slot counter starting after the receiver. */
  method EmitParameterChecks(st: Strategy, pm: ParentMethod) returns (code: seq<Instr>)
    ensures code == BridgeParamChecks(st.configuration, pm.methodModel, |pm.methodModel.desc.params|)
  {
    var m := pm.methodModel;
    ghost var c, h := st.configuration, BridgeHeader(m);
    var paramTypes := m.desc.params;
    code := [];
    var slotIndex := 1;
    for i := 0 to |paramTypes|
      invariant slotIndex == ParamSlot(h, i)
      invariant code == BridgeParamChecks(c, m, i)
    {
      ParamSlotStep(h, i);
      var check := EmitParameterCheck(st, pm, i, slotIndex);
      code := code + check;
      slotIndex := slotIndex + SlotSize(KindOf(paramTypes[i]));
    }
  }

  /** Step 2 of emitBridge, after aload 0: each parameter reloaded from its slot with its typed load. */
  method EmitArgumentLoads(m: MethodModel) returns (r: Result<seq<Instr>>)
    ensures r == ArgumentLoads(m, |m.desc.params|)
  {
    ghost var h := BridgeHeader(m);
    var paramTypes := m.desc.params;
    var code: seq<Instr> := [];
    var slotIndex := 1;
    for i := 0 to |paramTypes|
      invariant slotIndex == ParamSlot(h, i)
      invariant ArgumentLoads(m, i) == Ok(code)
    {
      ParamSlotStep(h, i);
      var kind := KindOf(paramTypes[i]);
      var ins := LoadLocal(kind, slotIndex);
      if ins.Raised? {
        ArgumentLoadsStaysRaised(m, i + 1, |paramTypes|);
        return Raised(ins.error);
      }
      code := code + [ins.value];
      slotIndex := slotIndex + SlotSize(kind);
    }
    r := Ok(code);
  }

  /** Step 3 of emitBridge, after the invokespecial: dup and the check of the returned value, when one is wanted. */
  method EmitReturnCheck(st: Strategy, pm: ParentMethod) returns (code: seq<Instr>)
    ensures code == BridgeReturnCheckCode(st.configuration, pm.methodModel)
  {
    var returnTarget := BridgeReturnCheck(st, pm);
    code := [];
    if returnTarget.Some? {
      code := [Dup] + GenerateCheck(returnTarget.value, Reference, "Return value of inherited method " + pm.methodModel.name);
    }
  }

  /** emitBridge: a PUBLIC method with the parent method's name and descriptor, whose code is built in the source's order. */
  method EmitBridge(st: Strategy, pm: ParentMethod) returns (r: Result<MethodModel>)
    ensures r == Bridge(st.configuration, pm)
  {
    var m := pm.methodModel;
    ghost var c := st.configuration;
    var code := EmitParameterChecks(st, pm);
    code := code + [Load(Reference, 0)];
    var loads := EmitArgumentLoads(m);
    if loads.Raised? {
      return Raised(loads.error);
    }
    code := code + loads.value;
    code := code + [Invoke(InvokeSpecial, ToSlashes(ToDots(pm.owner.thisClass)), m.name, m.desc)];
    var returnCheck := EmitReturnCheck(st, pm);
    code := code + returnCheck;
    code := code + [ReturnResult(m.desc.ret)];
    assert BridgeCode(c, pm) == Ok(code);
    r := Ok(BridgeHeader(m).(elements := [CodeAttribute(Lift(code), [])]));
  }

  lemma {:induction false} ArgumentLoadsStaysRaised(m: MethodModel, k: nat, n: nat)
    requires k <= n <= |m.desc.params| && ArgumentLoads(m, k).Raised?
    ensures ArgumentLoads(m, n) == ArgumentLoads(m, k)
    decreases n - k
  {
    if k < n {
      ArgumentLoadsStaysRaised(m, k, n - 1);
    }
  }

  /** The reloads fail exactly when a parameter is declared void, and then with IllegalArgumentException. */
  lemma {:induction false} ArgumentLoadsFail(m: MethodModel, n: nat)
    requires n <= |m.desc.params|
    ensures ArgumentLoads(m, n).Raised? <==> exists i :: 0 <= i < n && m.desc.params[i] == V
    ensures ArgumentLoads(m, n).Raised? ==> ArgumentLoads(m, n).error == IllegalArgument("Unknown type")
  {
    if n > 0 {
      ArgumentLoadsFail(m, n - 1);
      if ArgumentLoads(m, n - 1).Ok? && m.desc.params[n - 1] != V {
        assert KindOf(m.desc.params[n - 1]) != Void;
        assert forall i :: 0 <= i < n && m.desc.params[i] == V ==> i < n - 1;
      }
    }
  }

  /** Under a descriptor without a '.', the forwarding call names the parent class itself. */
  lemma ParentOwnerIsOwner(pm: ParentMethod)
    requires '.' !in pm.owner.thisClass
    ensures ParentOwner(pm) == pm.owner.thisClass
  {
    ReplaceRoundTrip(pm.owner.thisClass, '/', '.');
  }

  // ---- What the bridge does to the operand stack ----

  /** The local slots of a bridge at entry: the receiver, then the parameters. */
  function BridgeLocals(m: MethodModel): (r: seq<TypeKind>)
    ensures r == EntryLocals(BridgeHeader(m))
  {
    [Reference] + SlotKinds(m.desc.params)
  }

  /** A parameter's slots hold its stack kind. */
  lemma BridgeSlotsHold(m: MethodModel, i: nat)
    requires i < |m.desc.params|
    ensures ParamSlot(BridgeHeader(m), i) + SlotSize(KindOf(m.desc.params[i])) <= |BridgeLocals(m)|
    ensures forall j :: ParamSlot(BridgeHeader(m), i) <= j < ParamSlot(BridgeHeader(m), i) + SlotSize(KindOf(m.desc.params[i])) ==>
      BridgeLocals(m)[j] == StackKind(KindOf(m.desc.params[i]))
  {
    var slot := ParamSlot(BridgeHeader(m), i);
    var size := SlotSize(KindOf(m.desc.params[i]));
    SlotKindsPrefix(m.desc.params, i);
    if size > 0 {
      SlotKindsAt(m.desc.params, i, size - 1);
    }
    forall j | slot <= j < slot + size
      ensures BridgeLocals(m)[j] == StackKind(KindOf(m.desc.params[i]))
    {
      SlotKindsAt(m.desc.params, i, j - slot);
    }
  }

  /** Parameter i exists, and when the bridge checks it, it is a reference. */
  predicate CheckedIsReference(c: ValidConfiguration, m: MethodModel, i: nat) {
    i < |m.desc.params| && (BridgeParameterCheckOf(c, m, i).Some? ==> KindOf(m.desc.params[i]) == Reference)
  }

  /** The check of a reference parameter loads its slot and consumes it again; an unchecked parameter has no code. */
  lemma BridgeParamCheckRestores(c: ValidConfiguration, m: MethodModel, i: nat, s: seq<Value>)
    requires CheckedIsReference(c, m, i)
    ensures Exec(BridgeParamCheckCode(c, m, i), BridgeLocals(m), s) == Some(s)
  {
    match BridgeParameterCheckOf(c, m, i)
    case None =>
    case Some(g) =>
      var locals := BridgeLocals(m);
      var slot := ParamSlot(BridgeHeader(m), i);
      var message := "Parameter " + NatToString(i) + " in inherited method " + m.name;
      BridgeSlotsHold(m, i);
      LoadCheckRestores(g, slot, message, locals, s);
  }

  /** When every parameter that gets a check is a reference, the parameter checks leave any stack as they found it. */
  lemma BridgeParamChecksRestore(c: ValidConfiguration, m: MethodModel, n: nat, s: seq<Value>)
    requires n <= |m.desc.params|
    requires forall i :: 0 <= i < n ==> CheckedIsReference(c, m, i)
    ensures Exec(BridgeParamChecks(c, m, n), BridgeLocals(m), s) == Some(s)
  {
    var piece := BridgeCheckPiece(c, m);
    forall i | 0 <= i < n
      ensures Exec(piece(i), BridgeLocals(m), s) == Some(s)
    {
      BridgeParamCheckRestores(c, m, i, s);
    }
    JoinedRestores(piece, n, BridgeLocals(m), s);
  }

  /**
   * The check the source emits for a primitive parameter: with no registered
   * annotation under an ENFORCE default the parameter gets a check, whose
   * aload of a primitive slot no verifier accepts.
   */
  lemma PrimitiveBridgeCheckIllTyped(c: ValidConfiguration, m: MethodModel, i: nat, s: seq<Value>)
    requires i < |m.desc.params| && KindOf(m.desc.params[i]) != Reference && m.desc.params[i] != V
    requires NoneRegistered(c, MethodParamAnnotations(m, i)) && c.defaultEntry.kind == Enforce
    ensures BridgeParamCheckCode(c, m, i) != []
    ensures Exec(BridgeParamCheckCode(c, m, i), BridgeLocals(m), s).None?
  {
    PrimitiveBridgeParameterChecked(c, m, i);
    BridgeSlotsHold(m, i);
    var code := BridgeParamCheckCode(c, m, i);
    var slot := ParamSlot(BridgeHeader(m), i);
    assert code[0] == Load(Reference, slot);
    assert BridgeLocals(m)[slot] == StackKind(KindOf(m.desc.params[i])) != Reference;
    assert Step(code[0], BridgeLocals(m), s).None?;
  }

  /** The values the reloads push: each parameter's entries, tagged with its slot. */
  function ArgValues(m: MethodModel, n: nat): seq<Value>
    requires n <= |m.desc.params|
  {
    if n == 0 then [] else ArgValues(m, n - 1) + Entries(KindOf(m.desc.params[n - 1]), ParamSlot(BridgeHeader(m), n - 1))
  }

  function KindsOf(vs: seq<Value>): (r: seq<TypeKind>)
    ensures |r| == |vs| && forall i :: 0 <= i < |vs| ==> r[i] == vs[i].kind
  {
    seq(|vs|, i requires 0 <= i < |vs| => vs[i].kind)
  }

  /** With no void parameter, the reloads succeed and push every parameter's value from its own slots. */
  lemma {:induction false} ArgumentLoadsPush(m: MethodModel, n: nat, s: seq<Value>)
    requires n <= |m.desc.params| && forall i :: 0 <= i < n ==> m.desc.params[i] != V
    ensures ArgumentLoads(m, n).Ok?
    ensures Exec(ArgumentLoads(m, n).value, BridgeLocals(m), s) == Some(s + ArgValues(m, n))
  {
    if n > 0 {
      var k := n - 1;
      var kind := KindOf(m.desc.params[k]);
      var slot := ParamSlot(BridgeHeader(m), k);
      ArgumentLoadsPush(m, k, s);
      var loads := ArgumentLoads(m, k).value;
      BridgeSlotsHold(m, k);
      LoadLocalPushes(kind, slot, BridgeLocals(m), s + ArgValues(m, k));
      assert ArgumentLoads(m, n).value == loads + [LoadLocal(kind, slot).value];
      ExecAppend(loads, [LoadLocal(kind, slot).value], BridgeLocals(m), s);
      assert ArgValues(m, n) == ArgValues(m, k) + Entries(kind, slot);
      assert s + ArgValues(m, k) + Entries(kind, slot) == s + ArgValues(m, n);
    } else {
      assert s + ArgValues(m, 0) == s;
    }
  }

  /** The pushed values have, slot by slot, the kinds the descriptor gives its parameters. */
  lemma {:induction false} ArgValueKinds(m: MethodModel, n: nat)
    requires n <= |m.desc.params|
    ensures KindsOf(ArgValues(m, n)) == SlotKinds(m.desc.params[..n])
  {
    if n > 0 {
      ArgValueKinds(m, n - 1);
      assert m.desc.params[..n][..n - 1] == m.desc.params[..n - 1];
    }
  }

  /**
   * Up to the forwarding call, a bridge whose checked parameters are
   * references ends with the receiver and the arguments on the stack; their
   * kinds are those invokespecial of the descriptor takes.
   */
  lemma BridgeCallStack(c: ValidConfiguration, m: MethodModel)
    requires forall i :: 0 <= i < |m.desc.params| ==> m.desc.params[i] != V
    requires forall i :: 0 <= i < |m.desc.params| ==> CheckedIsReference(c, m, i)
    ensures ArgumentLoads(m, |m.desc.params|).Ok?
    ensures Exec(BridgeParamChecks(c, m, |m.desc.params|) + [Load(Reference, 0)] + ArgumentLoads(m, |m.desc.params|).value, BridgeLocals(m), [])
      == Some([Value(Reference, 0)] + ArgValues(m, |m.desc.params|))
    ensures KindsOf([Value(Reference, 0)] + ArgValues(m, |m.desc.params|)) == [Reference] + SlotKinds(m.desc.params)
  {
    BridgeCallExec(c, m);
    BridgeCallKinds(m);
  }

  lemma BridgeCallExec(c: ValidConfiguration, m: MethodModel)
    requires forall i :: 0 <= i < |m.desc.params| ==> m.desc.params[i] != V
    requires forall i :: 0 <= i < |m.desc.params| ==> CheckedIsReference(c, m, i)
    ensures ArgumentLoads(m, |m.desc.params|).Ok?
    ensures Exec(BridgeParamChecks(c, m, |m.desc.params|) + [Load(Reference, 0)] + ArgumentLoads(m, |m.desc.params|).value, BridgeLocals(m), [])
      == Some([Value(Reference, 0)] + ArgValues(m, |m.desc.params|))
  {
    var n := |m.desc.params|;
    var locals := BridgeLocals(m);
    var checks := BridgeParamChecks(c, m, n);
    var receiver := [Value(Reference, 0)];
    ArgumentLoadsPush(m, n, receiver);
    BridgeParamChecksRestore(c, m, n, []);
    PushReceiver(checks, locals);
    ExecThen(checks + [Load(Reference, 0)], ArgumentLoads(m, n).value, locals, [], receiver);
  }

  lemma BridgeCallKinds(m: MethodModel)
    ensures KindsOf([Value(Reference, 0)] + ArgValues(m, |m.desc.params|)) == [Reference] + SlotKinds(m.desc.params)
  {
    var n := |m.desc.params|;
    ArgValueKinds(m, n);
    assert m.desc.params[..n] == m.desc.params;
    KindsOfCons(Value(Reference, 0), ArgValues(m, n));
  }

  lemma KindsOfCons(v: Value, vs: seq<Value>)
    ensures KindsOf([v] + vs) == [v.kind] + KindsOf(vs)
  {
    var all := [v] + vs;
    assert forall i :: 0 <= i < |vs| ==> all[i + 1] == vs[i];
  }

  lemma {:induction false} PushReceiver(checks: seq<Instr>, locals: seq<TypeKind>)
    requires |locals| >= 1 && locals[0] == Reference && Exec(checks, locals, []) == Some([])
    ensures Exec(checks + [Load(Reference, 0)], locals, []) == Some([Value(Reference, 0)])
  {
    var empty: seq<Value> := [];
    ExecAppend(checks, [Load(Reference, 0)], locals, empty);
    ExecSingle(Load(Reference, 0), locals, empty);
    assert locals[0] == StackKind(Reference);
    assert empty + Entries(Reference, 0) == [Value(Reference, 0)];
  }

  /** After the call has pushed its result, the return check leaves it in place for the typed return. */
  lemma BridgeReturnStack(c: ValidConfiguration, m: MethodModel, locals: seq<TypeKind>, s: seq<Value>)
    requires KindOf(m.desc.ret) != Void
    ensures Exec(BridgeReturnCheckCode(c, m), locals, s + Entries(KindOf(m.desc.ret), -1)) == Some(s + Entries(KindOf(m.desc.ret), -1))
    ensures ReturnResult(m.desc.ret).kind == StackKind(KindOf(m.desc.ret))
  {
    var t := s + Entries(KindOf(m.desc.ret), -1);
    if BridgeReturnCheckOf(c, m).Some? {
      assert KindOf(m.desc.ret) == Reference;
      DupCheckRestores(BridgeReturnCheckOf(c, m).value, "Return value of inherited method " + m.name, locals, t);
    }
  }

  /** A bridge can be built exactly when no parameter is declared void; it is PUBLIC and takes the parent method's name and descriptor. */
  lemma BridgeShape(c: ValidConfiguration, pm: ParentMethod)
    ensures Bridge(c, pm).Ok? <==> forall i :: 0 <= i < |pm.methodModel.desc.params| ==> pm.methodModel.desc.params[i] != V
    ensures Bridge(c, pm).Raised? ==> Bridge(c, pm).error == IllegalArgument("Unknown type")
    ensures Bridge(c, pm).Ok? ==>
      var b := Bridge(c, pm).value;
      b.name == pm.methodModel.name && b.desc == pm.methodModel.desc && b.flags == ACC_PUBLIC &&
      |b.elements| == 1 && b.elements[0].CodeAttribute?
  {
    ArgumentLoadsFail(pm.methodModel, |pm.methodModel.desc.params|);
  }

  // ---- The bridges of a class ----

  predicate Distinct<T(==)>(s: seq<T>) {
    forall i, j :: 0 <= i < j < |s| ==> s[i] != s[j]
  }

  /** The candidates that get a bridge. */
  function WantedBridges(c: Configuration, candidates: set<ParentMethod>): (r: set<ParentMethod>)
    ensures r <= candidates
  {
    set pm | pm in candidates && BridgeWanted(c, pm)
  }

  lemma WantedMember(c: ValidConfiguration, candidates: set<ParentMethod>, pm: ParentMethod)
    requires pm in candidates
    ensures pm in WantedBridges(c, candidates) <==> BridgeWanted(c, pm)
  {
  }

  /** How a candidate's bridge is built, as a function value. */
  function BridgeBuilder(c: ValidConfiguration): ParentMethod -> Result<MethodModel> {
    (pm: ParentMethod) => Bridge(c, pm)
  }

  /** The bridges of the candidates taken in this order; the first that cannot be built raises. */
  function BridgesOf(build: ParentMethod -> Result<MethodModel>, order: seq<ParentMethod>): Result<seq<MethodModel>> {
    if order == [] then Ok([])
    else match BridgesOf(build, order[..|order| - 1])
      case Raised(e) => Raised(e)
      case Ok(bs) =>
        match build(order[|order| - 1])
        case Raised(e) => Raised(e)
        case Ok(b) => Ok(bs + [b])
  }

  lemma BridgesOfStep(build: ParentMethod -> Result<MethodModel>, order: seq<ParentMethod>, bs: seq<MethodModel>, pm: ParentMethod)
    requires BridgesOf(build, order) == Ok(bs)
    ensures BridgesOf(build, order + [pm]) == (match build(pm) case Raised(e) => Raised(e) case Ok(b) => Ok(bs + [b]))
  {
    assert (order + [pm])[..|order|] == order;
  }

  /** The bridges in order are one per candidate; they fail exactly when one of them cannot be built. */
  lemma {:induction false} BridgesOfSpec(build: ParentMethod -> Result<MethodModel>, order: seq<ParentMethod>)
    ensures BridgesOf(build, order).Ok? <==> forall i :: 0 <= i < |order| ==> build(order[i]).Ok?
    ensures BridgesOf(build, order).Ok? ==>
      |BridgesOf(build, order).value| == |order| &&
      forall i :: 0 <= i < |order| ==> BridgesOf(build, order).value[i] == build(order[i]).value
  {
    if order != [] {
      var init := order[..|order| - 1];
      BridgesOfSpec(build, init);
      assert forall i :: 0 <= i < |init| ==> init[i] == order[i];
    }
  }

  /** The per-method rewrite of one method element: its code goes through a fresh code transform. */
  function RewriteElement(st: Strategy, classModel: ClassModel, m: MethodModel, isCheckedScope: bool, e: MethodElement): MethodElement
    requires OverrideWalkEnds(st, classModel)
  {
    match e
    case CodeAttribute(code, tas) => CodeAttribute(Code(Transformed(Context(st, classModel, m, isCheckedScope), code)), tas)
    case OtherMethodElement(_) => e
  }

  /** A method with code has its elements rewritten; a method without code is copied. */
  function RewriteMethod(st: Strategy, classModel: ClassModel, isCheckedScope: bool, m: MethodModel): MethodModel
    requires OverrideWalkEnds(st, classModel)
  {
    if CodeOf(m.elements).None? then m
    else m.(elements := seq(|m.elements|, k requires 0 <= k < |m.elements| => RewriteElement(st, classModel, m, isCheckedScope, m.elements[k])))
  }

  function RewriteMethods(st: Strategy, classModel: ClassModel, isCheckedScope: bool, ms: seq<MethodModel>): seq<MethodModel>
    requires OverrideWalkEnds(st, classModel)
  {
    seq(|ms|, k requires 0 <= k < |ms| => RewriteMethod(st, classModel, isCheckedScope, ms[k]))
  }

  /** The class is in checked scope when the scope filter accepts its internal name. */
  predicate InScope(scopeFilter: ClassInfo -> bool, classModel: ClassModel) {
    scopeFilter(ClassInfo(Some(classModel.thisClass)))
  }

  // ---- New code is old code with instructions inserted ----

  /** b is a with instruction elements inserted. */
  predicate IsInsertion(a: seq<CodeElement>, b: seq<CodeElement>)
    decreases |b|
  {
    if b == [] then a == []
    else (b[|b| - 1].Instruction? && IsInsertion(a, b[..|b| - 1])) ||
         (a != [] && a[|a| - 1] == b[|b| - 1] && IsInsertion(a[..|a| - 1], b[..|b| - 1]))
  }

  lemma {:induction false} InsertBlock(a: seq<CodeElement>, b: seq<CodeElement>, block: seq<Instr>)
    requires IsInsertion(a, b)
    ensures IsInsertion(a, b + Lift(block))
    decreases |block|
  {
    if block != [] {
      var init := block[..|block| - 1];
      InsertBlock(a, b, init);
      var bb := b + Lift(block);
      assert Lift(block) == Lift(init) + [Instruction(block[|block| - 1])];
      assert bb[..|bb| - 1] == b + Lift(init);
      assert bb[|bb| - 1].Instruction?;
    } else {
      assert b + Lift(block) == b;
    }
  }

  /** Every output of the pass is its originals with instructions inserted. */
  lemma {:induction false} CodeIsInsertion(out: seq<Emitted>)
    ensures IsInsertion(Originals(out), Code(out))
  {
    if out != [] {
      var init := out[..|out| - 1];
      CodeIsInsertion(init);
      match out[|out| - 1]
      case Original(e) =>
        var a, b := Originals(init) + [e], Code(init) + [e];
        assert a[..|a| - 1] == Originals(init) && b[..|b| - 1] == Code(init);
      case Inserted(block) =>
        assert Originals(out) == Originals(init);
        InsertBlock(Originals(init), Code(init), block);
    }
  }

  /**
   * Rewriting a method keeps its header and every non-code element, and each
   * code attribute keeps its type annotations and gets back its old code with
   * instructions inserted.
   */
  lemma RewriteOnlyInserts(st: Strategy, classModel: ClassModel, isCheckedScope: bool, m: MethodModel)
    requires OverrideWalkEnds(st, classModel)
    ensures var r := RewriteMethod(st, classModel, isCheckedScope, m);
      r.name == m.name && r.desc == m.desc && r.flags == m.flags && r.annotations == m.annotations &&
      r.parameterAnnotations == m.parameterAnnotations && r.typeAnnotations == m.typeAnnotations &&
      |r.elements| == |m.elements| &&
      forall k :: 0 <= k < |m.elements| ==>
        r.elements[k].CodeAttribute? == m.elements[k].CodeAttribute? &&
        (m.elements[k].OtherMethodElement? ==> r.elements[k] == m.elements[k]) &&
        (m.elements[k].CodeAttribute? ==>
          r.elements[k].codeTypeAnnotations == m.elements[k].codeTypeAnnotations &&
          IsInsertion(m.elements[k].code, r.elements[k].code))
  {
    var r := RewriteMethod(st, classModel, isCheckedScope, m);
    forall k | 0 <= k < |m.elements| && m.elements[k].CodeAttribute?
      ensures IsInsertion(m.elements[k].code, r.elements[k].code)
    {
      var ctx := Context(st, classModel, m, isCheckedScope);
      var out := Transformed(ctx, m.elements[k].code);
      TransformErases(ctx, m.elements[k].code);
      CodeIsInsertion(out);
    }
  }

  // ---- Builders ----

  /** The methods a ClassBuilder has been given, in order. */
  class ClassBuilder {
    var methods: seq<MethodModel>

    constructor ()
      ensures methods == []
    {
      methods := [];
    }

    method WithMethod(m: MethodModel)
      modifies this
      ensures methods == old(methods) + [m]
    {
      methods := methods + [m];
    }

    method WithMethods(ms: seq<MethodModel>)
      modifies this
      ensures methods == old(methods) + ms
    {
      for k := 0 to |ms|
        invariant methods == old(methods) + ms[..k]
      {
        WithMethod(ms[k]);
        assert ms[..k + 1] == ms[..k] + [ms[k]];
      }
      assert ms[..|ms|] == ms;
    }
  }

  /** transformMethod with a fresh code transform for each Code attribute. */
  method TransformMethod(st: Strategy, classModel: ClassModel, m: MethodModel, isCheckedScope: bool) returns (r: MethodModel)
    requires OverrideWalkEnds(st, classModel)
    ensures r == RewriteMethod(st, classModel, isCheckedScope, m)
  {
    if CodeOf(m.elements).None? {
      return m;
    }
    var elements: seq<MethodElement> := [];
    for k := 0 to |m.elements|
      invariant |elements| == k
      invariant forall j :: 0 <= j < k ==> elements[j] == RewriteElement(st, classModel, m, isCheckedScope, m.elements[j])
    {
      var next := TransformElement(st, classModel, m, isCheckedScope, m.elements[k]);
      elements := elements + [next];
    }
    ghost var spec := RewriteMethod(st, classModel, isCheckedScope, m);
    assert spec.elements == elements;
    r := m.(elements := elements);
  }

  /** One element of a method with code: a Code attribute goes through a fresh code transform, anything else is copied. */
  method TransformElement(st: Strategy, classModel: ClassModel, m: MethodModel, isCheckedScope: bool, e: MethodElement)
    returns (r: MethodElement)
    requires OverrideWalkEnds(st, classModel)
    ensures r == RewriteElement(st, classModel, m, isCheckedScope, e)
  {
    r := e;
    if e.CodeAttribute? {
      var out := TransformCode(st, classModel, m, isCheckedScope, e.code);
      r := CodeAttribute(Code(out), e.codeTypeAnnotations);
    }
  }

  /** The accept of the class transform for the methods: each, rewritten or copied, goes to the builder in order. */
  method RewriteAllMethods(st: Strategy, classModel: ClassModel, isCheckedScope: bool, builder: ClassBuilder)
    requires OverrideWalkEnds(st, classModel)
    modifies builder
    ensures builder.methods == old(builder.methods) + RewriteMethods(st, classModel, isCheckedScope, classModel.methods)
  {
    ghost var before := builder.methods;
    for k := 0 to |classModel.methods|
      invariant |builder.methods| == |before| + k
      invariant builder.methods[..|before|] == before
      invariant forall j :: 0 <= j < k ==> builder.methods[|before| + j] == RewriteMethod(st, classModel, isCheckedScope, classModel.methods[j])
    {
      var rewritten := TransformMethod(st, classModel, classModel.methods[k], isCheckedScope);
      builder.WithMethod(rewritten);
    }
  }

  /** The body of the loop of generateBridgeMethods: a bridge, when the strategy wants one. */
  method ConsiderCandidate(st: Strategy, pm: ParentMethod) returns (wanted: bool, bridge: Result<MethodModel>)
    ensures wanted == BridgeWanted(st.configuration, pm)
    ensures wanted ==> bridge == BridgeBuilder(st.configuration)(pm)
  {
    wanted := ShouldGenerateBridge(st, pm);
    bridge := Ok(BridgeHeader(pm.methodModel));
    if wanted {
      bridge := EmitBridge(st, pm);
    }
  }

  /**
   * The loop of generateBridgeMethods over a candidate set, in the set's
   * (unspecified) order. The ghost order lists the candidates bridged; an
   * exception from emitBridge ends the walk.
   */
  method EmitBridges(st: Strategy, candidates: set<ParentMethod>) returns (r: Result<seq<MethodModel>>, ghost order: seq<ParentMethod>)
    ensures Distinct(order)
    ensures forall pm :: pm in order ==> pm in WantedBridges(st.configuration, candidates)
    ensures r.Ok? ==> forall pm :: pm in WantedBridges(st.configuration, candidates) ==> pm in order
    ensures r == BridgesOf(BridgeBuilder(st.configuration), order)
  {
    ghost var wanted := WantedBridges(st.configuration, candidates);
    var rest := candidates;
    var bridges: seq<MethodModel> := [];
    order := [];
    while rest != {}
      invariant rest <= candidates
      invariant Distinct(order)
      invariant forall pm :: pm in order ==> pm in wanted && pm !in rest
      invariant forall pm :: pm in wanted && pm !in rest ==> pm in order
      invariant BridgesOf(BridgeBuilder(st.configuration), order) == Ok(bridges)
      decreases rest
    {
      var pm :| pm in rest;
      rest := rest - {pm};
      var isWanted, bridge := ConsiderCandidate(st, pm);
      WantedMember(st.configuration, candidates, pm);
      if isWanted {
        BridgesOfStep(BridgeBuilder(st.configuration), order, bridges, pm);
        order := order + [pm];
        if bridge.Raised? {
          return Raised(bridge.error), order;
        }
        bridges := bridges + [bridge.value];
      }
    }
    r := Ok(bridges);
  }

  /** An instrumenter: the strategy, the hierarchy resolver (its filter and the loader's classes) and the scope filter. */
  class EnforcementInstrumenter {
    const strategy: Strategy
    const resolverFilter: string -> bool
    const classes: ClassMap
    const scopeFilter: ClassInfo -> bool

    constructor (strategy: Strategy, resolverFilter: string -> bool, classes: ClassMap, scopeFilter: ClassInfo -> bool)
      ensures this.strategy == strategy && this.resolverFilter == resolverFilter
      ensures this.classes == classes && this.scopeFilter == scopeFilter
    {
      this.strategy := strategy;
      this.resolverFilter := resolverFilter;
      this.classes := classes;
      this.scopeFilter := scopeFilter;
    }

    /** generateBridgeMethods: the resolver's candidates, each bridged when the strategy wants it. */
    method GenerateBridgeMethods(model: ClassModel) returns (r: Result<seq<MethodModel>>, ghost order: seq<ParentMethod>)
      requires WalkEnds(classes, SuperBinaryName(model), |classes|)
      ensures Distinct(order)
      ensures forall pm :: pm in order ==> pm in WantedBridges(strategy.configuration, UncheckedMethods(resolverFilter, classes, model))
      ensures r.Ok? ==> forall pm :: pm in WantedBridges(strategy.configuration, UncheckedMethods(resolverFilter, classes, model)) ==> pm in order
      ensures r == BridgesOf(BridgeBuilder(strategy.configuration), order)
    {
      var candidates := ResolveUncheckedMethods(resolverFilter, classes, model);
      r, order := EmitBridges(strategy, candidates);
    }

    /**
     * The class transform: checked scope is decided once from the class's
     * internal name; every method is rewritten or copied in order; in checked
     * scope the bridges follow at the end.
     */
    method TransformClass(classModel: ClassModel) returns (r: Result<ClassModel>, ghost order: seq<ParentMethod>)
      requires OverrideWalkEnds(strategy, classModel)
      requires WalkEnds(classes, SuperBinaryName(classModel), |classes|)
      ensures !InScope(scopeFilter, classModel) ==>
        r == Ok(classModel.(methods := RewriteMethods(strategy, classModel, false, classModel.methods)))
      ensures InScope(scopeFilter, classModel) ==>
        Distinct(order) &&
        (forall pm :: pm in order ==> pm in WantedBridges(strategy.configuration, UncheckedMethods(resolverFilter, classes, classModel))) &&
        (r.Ok? ==> forall pm :: pm in WantedBridges(strategy.configuration, UncheckedMethods(resolverFilter, classes, classModel)) ==> pm in order) &&
        r == (match BridgesOf(BridgeBuilder(strategy.configuration), order)
              case Raised(e) => Raised(e)
              case Ok(bridges) => Ok(classModel.(methods := RewriteMethods(strategy, classModel, true, classModel.methods) + bridges)))
    {
      var isCheckedScope := scopeFilter(ClassInfo(Some(classModel.thisClass)));
      var builder := new ClassBuilder();
      ghost var rewritten := RewriteMethods(strategy, classModel, isCheckedScope, classModel.methods);
      RewriteAllMethods(strategy, classModel, isCheckedScope, builder);
      assert builder.methods == [] + rewritten == rewritten;
      order := [];
      if isCheckedScope {
        var bridges;
        bridges, order := GenerateBridgeMethods(classModel);
        if bridges.Raised? {
          return Raised(bridges.error), order;
        }
        builder.WithMethods(bridges.value);
      }
      r := Ok(classModel.(methods := builder.methods));
    }
  }
}
