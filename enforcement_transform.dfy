/**
 * The per-method code transform: a one-pass rewrite of a method's code
 * elements that inserts parameter checks once at entry, checks before the
 * instructions that write a value away and after the ones that bring a value
 * in, each gated by the strategy and by whether the class is in checked scope.
 */
module EnforcementTransform {
  import opened Wrappers
  import opened JavaString
  import opened ClassFile
  import opened OperandStack
  import opened Runtime
  import opened NullnessCheckGenerator
  import opened BoundaryStrategy
  import opened Configuration

  /**
   * A piece of the rewritten code, marked by where it came from: an element
   * copied from the input, or a block of instructions the transform inserted
   * (possibly empty). The mark is a device of the model; the code the
   * builder ends up with is what Code() reads off.
   */
  datatype Emitted = Original(element: CodeElement) | Inserted(block: seq<Instr>)

  /** Instructions as code elements. */
  function Lift(block: seq<Instr>): (r: seq<CodeElement>)
    ensures |r| == |block|
    ensures forall i :: 0 <= i < |block| ==> r[i] == Instruction(block[i])
  {
    seq(|block|, i requires 0 <= i < |block| => Instruction(block[i]))
  }

  /** The code elements one piece stands for. */
  function Piece(x: Emitted): seq<CodeElement> {
    match x
    case Original(e) => [e]
    case Inserted(block) => Lift(block)
  }

  /** The element a piece copies, if any. */
  function OriginalPiece(x: Emitted): seq<CodeElement> {
    match x
    case Original(e) => [e]
    case Inserted(_) => []
  }

  /** The code elements a builder holds, blocks spliced in. */
  function Code(out: seq<Emitted>): seq<CodeElement> {
    if out == [] then [] else Code(out[..|out| - 1]) + Piece(out[|out| - 1])
  }

  /** The output with every inserted block deleted. */
  function Originals(out: seq<Emitted>): seq<CodeElement> {
    if out == [] then [] else Originals(out[..|out| - 1]) + OriginalPiece(out[|out| - 1])
  }

  lemma {:induction false} OriginalsAppend(a: seq<Emitted>, b: seq<Emitted>)
    ensures Originals(a + b) == Originals(a) + Originals(b)
    decreases |b|
  {
    if b == [] {
      assert a + b == a;
    } else {
      var n := |b| - 1;
      var ab := a + b;
      assert ab[..|ab| - 1] == a + b[..n];
      assert ab[|ab| - 1] == b[n];
      assert Originals(ab) == Originals(a + b[..n]) + OriginalPiece(b[n]);
      OriginalsAppend(a, b[..n]);
      assert Originals(b) == Originals(b[..n]) + OriginalPiece(b[n]);
    }
  }

  /** What a transform knows about the method it rewrites. */
  datatype Context = Context(strategy: Strategy, classModel: ClassModel, methodModel: MethodModel, isCheckedScope: bool)
  {
    /** The strict strategy's ancestor walk for this class ends. */
    predicate Valid() {
      OverrideWalkEnds(strategy, classModel)
    }
  }

  predicate IsStatic(m: MethodModel) {
    HasFlag(m.flags, ACC_STATIC)
  }

  // ---- The checks that go with each kind of instruction ----

  /** findField matches a field by name and by descriptor string. */
  predicate FieldMatches(f: FieldModel, name: string, fieldType: ClassDesc) {
    f.name == name && DescriptorString(f.fieldType) == DescriptorString(fieldType)
  }

  /** findField: the first field of the class with this name and type, or null. */
  function FindField(fields: seq<FieldModel>, name: string, fieldType: ClassDesc): (r: Option<FieldModel>)
    ensures r.None? <==> forall k :: 0 <= k < |fields| ==> !FieldMatches(fields[k], name, fieldType)
    ensures r.Some? ==> exists k :: 0 <= k < |fields| && fields[k] == r.value && FieldMatches(fields[k], name, fieldType) &&
                                    forall j :: 0 <= j < k ==> !FieldMatches(fields[j], name, fieldType)
  {
    if fields == [] then None
    else if FieldMatches(fields[0], name, fieldType) then Some(fields[0])
    else
      var r := FindField(fields[1..], name, fieldType);
      assert forall k :: 1 <= k < |fields| ==> fields[1..][k - 1] == fields[k];
      if r.Some? then
        var k :| 0 <= k < |fields[1..]| && fields[1..][k] == r.value && FieldMatches(fields[1..][k], name, fieldType) &&
                 forall j :: 0 <= j < k ==> !FieldMatches(fields[1..][j], name, fieldType);
        assert fields[k + 1] == r.value && forall j :: 0 <= j < k + 1 ==> !FieldMatches(fields[j], name, fieldType);
        r
      else r
  }

  /** dup, then the check: the shape used for every check that leaves the value where it was. */
  function DupCheck(target: Option<CheckGenerator>, kind: TypeKind, message: string): seq<Instr> {
    match target
    case None => []
    case Some(g) => [Dup] + GenerateCheck(g, kind, message)
  }

  /** A field of the class itself uses the field policy (nothing if no field matches); any other owner the boundary policy. */
  function FieldWriteTarget(ctx: Context, owner: string, name: string, t: ClassDesc): (r: Option<CheckGenerator>)
    ensures r.Some? ==> KindOf(t) == Reference && owner != ctx.classModel.thisClass
  {
    if owner == ctx.classModel.thisClass then
      match FindField(ctx.classModel.fields, name, t)
      case Some(f) => FieldWriteCheck(ctx.strategy, f, KindOf(t))
      case None => None
    else BoundaryFieldWriteCheck(ctx.strategy, owner, name, KindOf(t))
  }

  function FieldReadTarget(ctx: Context, owner: string, name: string, t: ClassDesc): (r: Option<CheckGenerator>)
    ensures r.Some? ==> KindOf(t) == Reference
  {
    if owner == ctx.classModel.thisClass then
      match FindField(ctx.classModel.fields, name, t)
      case Some(f) => FieldReadCheck(ctx.strategy, f, KindOf(t))
      case None => None
    else BoundaryFieldReadCheck(ctx.strategy, owner, name, KindOf(t))
  }

  /** emitFieldWriteCheck: dup for PUTSTATIC; dup_x1 and a closing swap for PUTFIELD, keeping the object reference in place. */
  function FieldWriteCheckCode(ctx: Context, op: FieldOp, owner: string, name: string, t: ClassDesc): seq<Instr> {
    match FieldWriteTarget(ctx, owner, name, t)
    case None => []
    case Some(g) =>
      if op == PutStatic then [Dup] + GenerateCheck(g, KindOf(t), "Static Field '" + name + "'")
      else if op == PutField then [DupX1] + GenerateCheck(g, KindOf(t), "Field '" + name + "'") + [Swap]
      else []
  }

  /** emitFieldReadCheck: only a one-slot value is checked. */
  function FieldReadCheckCode(ctx: Context, owner: string, name: string, t: ClassDesc): seq<Instr> {
    if SlotSize(KindOf(t)) == 1 then DupCheck(FieldReadTarget(ctx, owner, name, t), KindOf(t), "Read Field '" + name + "'")
    else []
  }

  /** emitReturnCheck (checked scope). */
  function ReturnCheckCode(ctx: Context): seq<Instr> {
    DupCheck(ReturnCheck(ctx.strategy, ctx.methodModel), Reference, "Return value of " + ctx.methodModel.name)
  }

  /** emitUncheckedReturnCheck (unchecked scope): only ARETURN asks the override policy. */
  function UncheckedReturnCheckCode(ctx: Context, kind: TypeKind): seq<Instr>
    requires ctx.Valid()
  {
    if kind != Reference then []
    else DupCheck(OverrideReturnCheckOf(ctx.strategy, ctx.classModel, ctx.methodModel), Reference,
                  "Return value of overridden method " + ctx.methodModel.name)
  }

  /** emitMethodCallCheck. */
  function CallCheckCode(ctx: Context, owner: string, name: string, desc: MethodDesc): seq<Instr> {
    DupCheck(BoundaryCallCheck(ctx.strategy, owner, desc), Reference, "Return value of " + name + " (Boundary)")
  }

  /** emitArrayStoreCheck: only AASTORE. */
  function ArrayStoreCheckCode(ctx: Context, kind: TypeKind): seq<Instr> {
    if kind == Reference then DupCheck(ArrayStoreCheck(ctx.strategy, Reference), Reference, "Array Element Write") else []
  }

  /** emitArrayLoadCheck: only AALOAD. */
  function ArrayLoadCheckCode(ctx: Context, kind: TypeKind): seq<Instr> {
    if kind == Reference then DupCheck(ArrayLoadCheck(ctx.strategy, Reference), Reference, "Array Element Read") else []
  }

  /** emitStoreCheck: only ASTORE in its forms. */
  function StoreCheckCode(ctx: Context, kind: TypeKind, slot: nat): seq<Instr> {
    if kind == Reference then
      DupCheck(LocalVariableWriteCheck(ctx.strategy, ctx.methodModel, slot, Reference), Reference,
               "Local Variable Assignment (Slot " + NatToString(slot) + ")")
    else []
  }

  /** The instructions that hand a value over: field writes, ARETURN, AASTORE and ASTORE. */
  predicate WritesValue(ins: Instr) {
    (ins.Field? && (ins.op == PutField || ins.op == PutStatic)) || ins == Return(Reference) ||
    ins == ArrayStore(Reference) || (ins.Store? && ins.kind == Reference)
  }

  /** The instructions that bring a value in: field reads, invokes and AALOAD. */
  predicate ReadsValue(ins: Instr) {
    (ins.Field? && (ins.op == GetField || ins.op == GetStatic)) || ins.Invoke? || ins == ArrayLoad(Reference)
  }

  /**
   * The check emitted just before an element. Only value-handing instructions
   * get one; a return is checked only outside checked scope (the strategy asks
   * for no return check inside it) and a local store only inside it.
   */
  function Before(ctx: Context, e: CodeElement): (r: seq<Instr>)
    requires ctx.Valid()
    ensures r != [] ==> e.Instruction? && WritesValue(e.ins)
    ensures r != [] && e.ins.Return? ==> !ctx.isCheckedScope
    ensures r != [] && e.ins.Store? ==> ctx.isCheckedScope
  {
    match e
    case Instruction(ins) =>
      (match ins
       case Field(op, owner, name, t) =>
         if op == PutField || op == PutStatic then FieldWriteCheckCode(ctx, op, owner, name, t) else []
       case Return(k) =>
         if ctx.isCheckedScope then ReturnCheckCode(ctx) else UncheckedReturnCheckCode(ctx, k)
       case ArrayStore(k) => ArrayStoreCheckCode(ctx, k)
       case Store(k, slot) => if ctx.isCheckedScope then StoreCheckCode(ctx, k, slot) else []
       case _ => [])
    case _ => []
  }

  /** The check emitted just after an element: only in checked scope, and only after a value-bringing instruction. */
  function After(ctx: Context, e: CodeElement): (r: seq<Instr>)
    ensures r != [] ==> ctx.isCheckedScope && e.Instruction? && ReadsValue(e.ins)
  {
    if !ctx.isCheckedScope then []
    else match e
      case Instruction(ins) =>
        (match ins
         case Field(op, owner, name, t) =>
           if op == GetField || op == GetStatic then FieldReadCheckCode(ctx, owner, name, t) else []
         case Invoke(_, owner, name, desc) => CallCheckCode(ctx, owner, name, desc)
         case ArrayLoad(k) => ArrayLoadCheckCode(ctx, k)
         case _ => [])
      case _ => []
  }

  /** The handle* methods and the default case of accept: the element, with its checks around it. */
  function Handle(ctx: Context, e: CodeElement): seq<Emitted>
    requires ctx.Valid()
  {
    [Inserted(Before(ctx, e)), Original(e), Inserted(After(ctx, e))]
  }

  /** Field-write and array-store checks do not depend on the scope. */
  lemma WriteChecksIgnoreScope(ctx: Context, e: CodeElement)
    requires ctx.Valid() && e.Instruction? && (e.ins.Field? || e.ins.ArrayStore?)
    ensures Before(ctx, e) == Before(ctx.(isCheckedScope := !ctx.isCheckedScope), e)
  {
  }

  // ---- Parameter checks at entry ----

  /** The local slot of parameter i: after the receiver of an instance method, each earlier parameter taking its slot size. */
  function ParamSlot(m: MethodModel, i: nat): nat
    requires i <= |m.desc.params|
  {
    (if IsStatic(m) then 0 else 1) + SlotSum(m.desc.params[..i])
  }

  /** The check of parameter i: aload of its slot, then the check. */
  function ParamCheckCode(ctx: Context, i: nat): seq<Instr>
    requires i < |ctx.methodModel.desc.params|
  {
    var m := ctx.methodModel;
    var kind := KindOf(m.desc.params[i]);
    match ParameterCheck(ctx.strategy, m, i, kind)
    case None => []
    case Some(g) => [Load(Reference, ParamSlot(m, i))] + GenerateCheck(g, kind, "Parameter " + NatToString(i))
  }

  /** The checks of the first n parameters, in declaration order. */
  function EntryChecks(ctx: Context, n: nat): seq<Instr>
    requires n <= |ctx.methodModel.desc.params|
  {
    if n == 0 then [] else EntryChecks(ctx, n - 1) + ParamCheckCode(ctx, n - 1)
  }

  lemma EntryChecksSnoc(ctx: Context, i: nat)
    requires i < |ctx.methodModel.desc.params|
    ensures EntryChecks(ctx, i + 1) == EntryChecks(ctx, i) + ParamCheckCode(ctx, i)
  {
  }

  function AllEntryChecks(ctx: Context): seq<Instr> {
    EntryChecks(ctx, |ctx.methodModel.desc.params|)
  }

  /** The entry checks of the first i parameters begin the entry checks of the first n. */
  lemma {:induction false} EntryChecksPrefix(ctx: Context, i: nat, n: nat)
    requires i <= n <= |ctx.methodModel.desc.params|
    ensures EntryChecks(ctx, i) <= EntryChecks(ctx, n)
    decreases n - i
  {
    if i < n {
      EntryChecksPrefix(ctx, i + 1, n);
      EntryChecksSnoc(ctx, i);
      PrefixOfLonger(EntryChecks(ctx, i), ParamCheckCode(ctx, i), EntryChecks(ctx, i + 1), EntryChecks(ctx, n));
    } else {
      PrefixRefl(EntryChecks(ctx, i), EntryChecks(ctx, n));
    }
  }

  lemma PrefixOfLonger<T>(a: seq<T>, c: seq<T>, b: seq<T>, whole: seq<T>)
    requires b == a + c && b <= whole
    ensures a <= whole
  {
    assert whole[..|a|] == b[..|a|];
  }

  lemma PrefixRefl<T>(a: seq<T>, b: seq<T>)
    requires a == b
    ensures a <= b
  {
  }

  /**
   * Implicit enforcement at method entry: a reference parameter with no
   * registered annotation, under an ENFORCE default, is loaded from its slot
   * and checked by the default generator blaming the caller, and that check
   * sits in the method's entry checks at the parameter's own position.
   */
  lemma UnannotatedParameterChecked(ctx: Context, i: nat)
    requires i < |ctx.methodModel.desc.params| && KindOf(ctx.methodModel.desc.params[i]) == Reference
    requires NoneRegistered(ctx.strategy.configuration, MethodParamAnnotations(ctx.methodModel, i))
    requires ctx.strategy.configuration.defaultEntry.kind == Enforce
    ensures var g := WithAttribution(ctx.strategy.configuration.defaultEntry.verifier.value, Caller);
      ParamCheckCode(ctx, i) == [Load(Reference, ParamSlot(ctx.methodModel, i))] + GenerateCheck(g, Reference, "Parameter " + NatToString(i))
    ensures CalledCheck(ParamCheckCode(ctx, i)[1..]) == Some((Message("Parameter " + NatToString(i)), Caller))
    ensures EntryChecks(ctx, i) + ParamCheckCode(ctx, i) <= AllEntryChecks(ctx)
  {
    var g := WithAttribution(ctx.strategy.configuration.defaultEntry.verifier.value, Caller);
    ParameterCheckResolves(ctx.strategy, ctx.methodModel, i, Reference);
    var code := ParamCheckCode(ctx, i);
    assert code[1..] == GenerateCheck(g, Reference, "Parameter " + NatToString(i));
    ReferenceCheckCallsVerifier(g, "Parameter " + NatToString(i));
    EntryChecksSnoc(ctx, i);
    EntryChecksPrefix(ctx, i + 1, |ctx.methodModel.desc.params|);
  }

  lemma ParamSlotStep(m: MethodModel, i: nat)
    requires i < |m.desc.params|
    ensures ParamSlot(m, i + 1) == ParamSlot(m, i) + SlotSize(KindOf(m.desc.params[i]))
  {
    assert m.desc.params[..i + 1][..i] == m.desc.params[..i];
  }

  /** The kinds of the local slots at method entry: the receiver of an instance method, then the parameters. */
  function EntryLocals(m: MethodModel): seq<TypeKind> {
    (if IsStatic(m) then [] else [Reference]) + SlotKinds(m.desc.params)
  }

  lemma {:induction false} SlotKindsPrefix(params: seq<ClassDesc>, n: nat)
    requires n <= |params|
    ensures SlotKinds(params[..n]) <= SlotKinds(params)
    decreases |params| - n
  {
    if n < |params| {
      SlotKindsPrefix(params, n + 1);
      assert params[..n + 1][..n] == params[..n];
    } else {
      assert params[..n] == params;
    }
  }

  /** The slots of parameter i hold its stack kind. */
  lemma SlotKindsAt(params: seq<ClassDesc>, i: nat, j: nat)
    requires i < |params| && j < SlotSize(KindOf(params[i]))
    ensures SlotSum(params[..i]) + j < |SlotKinds(params)|
    ensures SlotKinds(params)[SlotSum(params[..i]) + j] == StackKind(KindOf(params[i]))
  {
    SlotKindsPrefix(params, i + 1);
    assert params[..i + 1][..i] == params[..i];
    assert SlotKinds(params[..i + 1])[SlotSum(params[..i]) + j] == StackKind(KindOf(params[i]));
  }

  /** A reference parameter's slot lies among the entry locals and holds a reference. */
  lemma ReferenceParamSlot(m: MethodModel, i: nat)
    requires i < |m.desc.params| && KindOf(m.desc.params[i]) == Reference
    ensures ParamSlot(m, i) < |EntryLocals(m)| && EntryLocals(m)[ParamSlot(m, i)] == Reference
  {
    SlotKindsAt(m.desc.params, i, 0);
  }

  /** The check of one parameter loads a reference slot and consumes it again. */
  lemma ParamCheckRestoresStack(ctx: Context, i: nat, s: seq<Value>)
    requires i < |ctx.methodModel.desc.params|
    ensures Exec(ParamCheckCode(ctx, i), EntryLocals(ctx.methodModel), s) == Some(s)
  {
    var m := ctx.methodModel;
    match ParameterCheck(ctx.strategy, m, i, KindOf(m.desc.params[i]))
    case None =>
    case Some(g) =>
      ReferenceParamSlot(m, i);
      LoadCheckRestores(g, ParamSlot(m, i), "Parameter " + NatToString(i), EntryLocals(m), s);
  }

  /** Every entry check is a reference check on a reference slot, so the entry checks leave any stack as they found it. */
  lemma {:induction false} EntryChecksRestoreStack(ctx: Context, n: nat, s: seq<Value>)
    requires n <= |ctx.methodModel.desc.params|
    ensures Exec(EntryChecks(ctx, n), EntryLocals(ctx.methodModel), s) == Some(s)
  {
    var locals := EntryLocals(ctx.methodModel);
    forall k | 0 <= k < n
      ensures Exec(EntryChecks(ctx, k), locals, s) == Some(s) ==> Exec(EntryChecks(ctx, k + 1), locals, s) == Some(s)
    {
      if Exec(EntryChecks(ctx, k), locals, s) == Some(s) {
        EntryChecksStep(ctx, k, locals, s);
      }
    }
    EntryChecksRestoreFrom(ctx, 0, n, locals, s);
  }

  /** Entry checks that restore the stack up to parameter i keep restoring it up to any later n, one check at a time. */
  lemma {:induction false} EntryChecksRestoreFrom(ctx: Context, i: nat, n: nat, locals: seq<TypeKind>, s: seq<Value>)
    requires i <= n <= |ctx.methodModel.desc.params|
    requires forall k :: i <= k < n ==>
      Exec(EntryChecks(ctx, k), locals, s) == Some(s) ==> Exec(EntryChecks(ctx, k + 1), locals, s) == Some(s)
    requires Exec(EntryChecks(ctx, i), locals, s) == Some(s)
    ensures Exec(EntryChecks(ctx, n), locals, s) == Some(s)
    decreases n - i
  {
    if i < n {
      EntryChecksRestoreFrom(ctx, i + 1, n, locals, s);
    }
  }

  /** One more parameter check keeps the entry checks restoring the stack. */
  lemma EntryChecksStep(ctx: Context, i: nat, locals: seq<TypeKind>, s: seq<Value>)
    requires i < |ctx.methodModel.desc.params|
    requires locals == EntryLocals(ctx.methodModel)
    requires Exec(EntryChecks(ctx, i), locals, s) == Some(s)
    ensures Exec(EntryChecks(ctx, i + 1), locals, s) == Some(s)
  {
    ParamCheckRestoresStack(ctx, i, s);
    EntryChecksSnoc(ctx, i);
    ExecThen(EntryChecks(ctx, i), ParamCheckCode(ctx, i), locals, s, s);
  }

  // ---- Stack effect of the checks around an element ----

  /**
   * A check before a value-handing instruction leaves the operand stack as it
   * found it, when the value on top is a reference (and, for PUTFIELD, the
   * object reference under it takes one slot).
   */
  lemma BeforeRestoresStack(ctx: Context, e: CodeElement, locals: seq<TypeKind>, s: seq<Value>)
    requires ctx.Valid()
    requires |s| >= 1 && s[|s| - 1].kind == Reference
    requires e.Instruction? && e.ins.Field? && e.ins.op == PutField ==> |s| >= 2 && Category1(s[|s| - 2])
    ensures Exec(Before(ctx, e), locals, s) == Some(s)
  {
    var code := Before(ctx, e);
    if code != [] {
      match e.ins
      case Field(op, owner, name, t) =>
        var g := FieldWriteTarget(ctx, owner, name, t).value;
        if op == PutStatic {
          DupCheckRestores(g, "Static Field '" + name + "'", locals, s);
        } else {
          DupX1CheckSwapRestores(g, "Field '" + name + "'", locals, s);
        }
      case Return(_) =>
        DupCheckRestores(OverrideReturnCheckOf(ctx.strategy, ctx.classModel, ctx.methodModel).value,
                         "Return value of overridden method " + ctx.methodModel.name, locals, s);
      case ArrayStore(_) =>
        DupCheckRestores(ArrayStoreCheck(ctx.strategy, Reference).value, "Array Element Write", locals, s);
      case Store(_, slot) =>
        DupCheckRestores(LocalVariableWriteCheck(ctx.strategy, ctx.methodModel, slot, Reference).value,
                         "Local Variable Assignment (Slot " + NatToString(slot) + ")", locals, s);
    }
  }

  /** A check after a value-bringing instruction leaves the operand stack as it found it, when the value on top is a reference. */
  lemma AfterRestoresStack(ctx: Context, e: CodeElement, locals: seq<TypeKind>, s: seq<Value>)
    requires |s| >= 1 && s[|s| - 1].kind == Reference
    ensures Exec(After(ctx, e), locals, s) == Some(s)
  {
    var code := After(ctx, e);
    if code != [] {
      match e.ins
      case Field(_, owner, name, t) =>
        DupCheckRestores(FieldReadTarget(ctx, owner, name, t).value, "Read Field '" + name + "'", locals, s);
      case Invoke(_, owner, name, desc) =>
        DupCheckRestores(BoundaryCallCheck(ctx.strategy, owner, desc).value, "Return value of " + name + " (Boundary)", locals, s);
      case ArrayLoad(_) =>
        DupCheckRestores(ArrayLoadCheck(ctx.strategy, Reference).value, "Array Element Read", locals, s);
    }
  }

  // ---- The pass over the code ----

  /** How every element is handled once the entry checks are settled: Handle, for one method. */
  function Handler(ctx: Context): CodeElement -> seq<Emitted>
    requires ctx.Valid()
  {
    (e: CodeElement) => Handle(ctx, e)
  }

  /**
   * accept: before the entry checks are out, a line number is copied and the
   * entry checks follow it; the first instruction gets the entry checks before
   * it and is then handled; any other element is handled without emitting them.
   */
  function AcceptStep(handle: CodeElement -> seq<Emitted>, entryChecks: seq<Instr>, entryChecksEmitted: bool, e: CodeElement): (seq<Emitted>, bool) {
    if entryChecksEmitted then (handle(e), true)
    else if e.LineNumber? then ([Original(e), Inserted(entryChecks)], true)
    else if e.Instruction? then ([Inserted(entryChecks)] + handle(e), true)
    else (handle(e), false)
  }

  /** The output of the pass over the remaining elements, from a given entry-check state. */
  function Run(handle: CodeElement -> seq<Emitted>, entryChecks: seq<Instr>, entryChecksEmitted: bool, code: seq<CodeElement>): seq<Emitted>
    decreases |code|
  {
    if code == [] then []
    else
      var step := AcceptStep(handle, entryChecks, entryChecksEmitted, code[0]);
      step.0 + Run(handle, entryChecks, step.1, code[1..])
  }

  /** The rewritten code of a method; outside checked scope the entry checks count as already emitted. */
  function Transformed(ctx: Context, code: seq<CodeElement>): seq<Emitted>
    requires ctx.Valid()
  {
    Run(Handler(ctx), AllEntryChecks(ctx), !ctx.isCheckedScope, code)
  }

  /** Every element handled in turn, with no entry checks. */
  function Plain(handle: CodeElement -> seq<Emitted>, code: seq<CodeElement>): seq<Emitted> {
    if code == [] then [] else handle(code[0]) + Plain(handle, code[1..])
  }

  /** Handling an element keeps it, once, among inserted blocks. */
  lemma HandleKeepsElement(ctx: Context, e: CodeElement)
    requires ctx.Valid()
    ensures Originals(Handle(ctx, e)) == [e]
    ensures Code(Handle(ctx, e)) == Lift(Before(ctx, e)) + [e] + Lift(After(ctx, e))
  {
    var before, after := Inserted(Before(ctx, e)), Inserted(After(ctx, e));
    var out := Handle(ctx, e);
    var first := [before, Original(e)];
    assert out[..|out| - 1] == first;
    assert first[..|first| - 1] == [before];
    assert [before][..0] == [];
    assert Originals([before]) == [] && Code([before]) == Lift(Before(ctx, e));
    assert Originals(first) == [e] && Code(first) == Lift(Before(ctx, e)) + [e];
  }

  /** A handler that keeps each element among inserted blocks makes a pass that does too. */
  lemma {:induction false} RunErases(handle: CodeElement -> seq<Emitted>, entryChecks: seq<Instr>, entryChecksEmitted: bool, code: seq<CodeElement>)
    requires forall e :: Originals(handle(e)) == [e]
    ensures Originals(Run(handle, entryChecks, entryChecksEmitted, code)) == code
    decreases |code|
  {
    if code != [] {
      var e := code[0];
      var step := AcceptStep(handle, entryChecks, entryChecksEmitted, e);
      var out, next := step.0, step.1;
      var rest := Run(handle, entryChecks, next, code[1..]);
      assert Run(handle, entryChecks, entryChecksEmitted, code) == out + rest;
      RunErases(handle, entryChecks, next, code[1..]);
      AcceptStepErases(handle, entryChecks, entryChecksEmitted, e);
      OriginalsAppend(out, rest);
      assert code == [e] + code[1..];
    }
  }

  /** One step of the pass keeps its element, once. */
  lemma AcceptStepErases(handle: CodeElement -> seq<Emitted>, entryChecks: seq<Instr>, entryChecksEmitted: bool, e: CodeElement)
    requires Originals(handle(e)) == [e]
    ensures Originals(AcceptStep(handle, entryChecks, entryChecksEmitted, e).0) == [e]
  {
    var block := [Inserted(entryChecks)];
    assert block[..0] == [];
    assert Originals(block) == [];
    if !entryChecksEmitted && e.LineNumber? {
      var two := [Original(e), Inserted(entryChecks)];
      assert two[..1] == [Original(e)];
      assert [Original(e)][..0] == [];
      assert Originals([Original(e)]) == [e];
    } else if !entryChecksEmitted && e.Instruction? {
      OriginalsAppend(block, handle(e));
    }
  }

  /** Deleting the inserted instructions from a rewritten method gives back its code, each element once and in order. */
  lemma TransformErases(ctx: Context, code: seq<CodeElement>)
    requires ctx.Valid()
    ensures Originals(Transformed(ctx, code)) == code
  {
    forall e: CodeElement ensures Originals(Handler(ctx)(e)) == [e] {
      HandleKeepsElement(ctx, e);
    }
    RunErases(Handler(ctx), AllEntryChecks(ctx), !ctx.isCheckedScope, code);
  }

  /** Once the entry checks are out, every element is only handled. */
  lemma {:induction false} RunAfterEntry(handle: CodeElement -> seq<Emitted>, entryChecks: seq<Instr>, code: seq<CodeElement>)
    ensures Run(handle, entryChecks, true, code) == Plain(handle, code)
    decreases |code|
  {
    if code != [] {
      RunAfterEntry(handle, entryChecks, code[1..]);
    }
  }

  /** Outside checked scope no entry checks are emitted. */
  lemma UncheckedHasNoEntryChecks(ctx: Context, code: seq<CodeElement>)
    requires ctx.Valid() && !ctx.isCheckedScope
    ensures Transformed(ctx, code) == Plain(Handler(ctx), code)
  {
    RunAfterEntry(Handler(ctx), AllEntryChecks(ctx), code);
  }

  /** Elements that are neither line numbers nor instructions. */
  predicate AllPseudo(code: seq<CodeElement>) {
    forall j :: 0 <= j < |code| ==> code[j].Pseudo?
  }

  /** From the state before the entry checks, they go right after the first line number or right before the first instruction. */
  lemma {:induction false} RunPlacesEntryChecks(handle: CodeElement -> seq<Emitted>, entryChecks: seq<Instr>,
                                                pre: seq<CodeElement>, e: CodeElement, post: seq<CodeElement>)
    requires AllPseudo(pre) && (e.LineNumber? || e.Instruction?)
    ensures Run(handle, entryChecks, false, pre + [e] + post) ==
      Plain(handle, pre) +
      (if e.LineNumber? then [Original(e), Inserted(entryChecks)] else [Inserted(entryChecks)] + handle(e)) +
      Plain(handle, post)
    decreases |pre|
  {
    var code := pre + [e] + post;
    if pre == [] {
      assert code == [e] + post;
      RunAfterEntry(handle, entryChecks, post);
    } else {
      assert code[1..] == pre[1..] + [e] + post;
      assert AllPseudo(pre[1..]) by {
        forall j | 0 <= j < |pre[1..]| ensures pre[1..][j].Pseudo? {
          assert pre[1..][j] == pre[j + 1];
        }
      }
      RunPlacesEntryChecks(handle, entryChecks, pre[1..], e, post);
    }
  }

  /** From the state before the entry checks, code with no line number or instruction gets none. */
  lemma {:induction false} RunWithoutEntryPoint(handle: CodeElement -> seq<Emitted>, entryChecks: seq<Instr>, code: seq<CodeElement>)
    requires AllPseudo(code)
    ensures Run(handle, entryChecks, false, code) == Plain(handle, code)
    decreases |code|
  {
    if code != [] {
      assert forall j :: 0 <= j < |code[1..]| ==> code[1..][j] == code[j + 1];
      RunWithoutEntryPoint(handle, entryChecks, code[1..]);
    }
  }

  /**
   * In checked scope the entry checks are emitted exactly once: right after
   * the first line number or right before the first instruction, whichever
   * comes first; every other element is only handled.
   */
  lemma EntryChecksPlacement(ctx: Context, pre: seq<CodeElement>, e: CodeElement, post: seq<CodeElement>)
    requires ctx.Valid() && ctx.isCheckedScope && AllPseudo(pre) && (e.LineNumber? || e.Instruction?)
    ensures Transformed(ctx, pre + [e] + post) ==
      Plain(Handler(ctx), pre) +
      (if e.LineNumber? then [Original(e), Inserted(AllEntryChecks(ctx))] else [Inserted(AllEntryChecks(ctx))] + Handle(ctx, e)) +
      Plain(Handler(ctx), post)
  {
    RunPlacesEntryChecks(Handler(ctx), AllEntryChecks(ctx), pre, e, post);
  }

  /** In checked scope, code with no line number or instruction gets no entry checks. */
  lemma NoEntryPointNoEntryChecks(ctx: Context, code: seq<CodeElement>)
    requires ctx.Valid() && ctx.isCheckedScope && AllPseudo(code)
    ensures Transformed(ctx, code) == Plain(Handler(ctx), code)
  {
    RunWithoutEntryPoint(Handler(ctx), AllEntryChecks(ctx), code);
  }

  // ---- The imperative transform ----

  /** The code builder the transform appends to. */
  class CodeBuilder {
    var elements: seq<Emitted>

    constructor ()
      ensures elements == []
    {
      elements := [];
    }

    /** builder.with(element): copy an input element. */
    method With(e: CodeElement)
      modifies this
      ensures elements == old(elements) + [Original(e)]
    {
      elements := elements + [Original(e)];
    }

    /** Append a block of inserted instructions. */
    method Emit(code: seq<Instr>)
      modifies this
      ensures elements == old(elements) + [Inserted(code)]
    {
      elements := elements + [Inserted(code)];
    }
  }

  /** One transform per method: the strategy, the class and method, the scope, and whether the entry checks are out. */
  class EnforcementTransform {
    const strategy: Strategy
    const classModel: ClassModel
    const methodModel: MethodModel
    const isCheckedScope: bool
    var entryChecksEmitted: bool

    function Ctx(): Context {
      Context(strategy, classModel, methodModel, isCheckedScope)
    }

    /** A transform outside checked scope starts with the entry checks counted as emitted. */
    constructor (strategy: Strategy, classModel: ClassModel, methodModel: MethodModel, isCheckedScope: bool)
      ensures Ctx() == Context(strategy, classModel, methodModel, isCheckedScope)
      ensures entryChecksEmitted == !isCheckedScope
    {
      this.strategy := strategy;
      this.classModel := classModel;
      this.methodModel := methodModel;
      this.isCheckedScope := isCheckedScope;
      this.entryChecksEmitted := !isCheckedScope;
    }

    method Accept(b: CodeBuilder, element: CodeElement)
      requires Ctx().Valid()
      modifies this, b
      ensures b.elements == old(b.elements) + AcceptStep(Handler(Ctx()), AllEntryChecks(Ctx()), old(entryChecksEmitted), element).0
      ensures entryChecksEmitted == AcceptStep(Handler(Ctx()), AllEntryChecks(Ctx()), old(entryChecksEmitted), element).1
    {
      ghost var before := b.elements;
      ghost var entry := [Inserted(AllEntryChecks(Ctx()))];
      ghost var step := AcceptStep(Handler(Ctx()), AllEntryChecks(Ctx()), entryChecksEmitted, element);
      var consumed := MaybeEmitEntryChecks(b, element);
      if consumed {
        return;
      }
      ghost var middle := b.elements;
      HandleElement(b, element);
      ghost var handled := Handle(Ctx(), element);
      assert Handler(Ctx())(element) == handled;
      if !old(entryChecksEmitted) && element.Instruction? {
        assert step.0 == entry + handled;
        assert middle == before + entry;
        assert b.elements == before + (entry + handled);
      } else {
        assert step.0 == handled;
        assert middle == before;
      }
    }

    method MaybeEmitEntryChecks(b: CodeBuilder, element: CodeElement) returns (consumed: bool)
      modifies this, b
      ensures consumed <==> !old(entryChecksEmitted) && element.LineNumber?
      ensures entryChecksEmitted == (old(entryChecksEmitted) || element.LineNumber? || element.Instruction?)
      ensures b.elements == old(b.elements) +
        (if old(entryChecksEmitted) then []
         else if element.LineNumber? then [Original(element), Inserted(AllEntryChecks(Ctx()))]
         else if element.Instruction? then [Inserted(AllEntryChecks(Ctx()))]
         else [])
    {
      if entryChecksEmitted {
        return false;
      }
      if element.LineNumber? {
        b.With(element);
        EmitParameterChecks(b);
        entryChecksEmitted := true;
        return true;
      } else if element.Instruction? {
        EmitParameterChecks(b);
        entryChecksEmitted := true;
        return false;
      }
      return false;
    }

    /** emitParameterChecks: parameters in declaration order, the slot advancing by each one's slot size. */
    method EmitParameterChecks(b: CodeBuilder)
      modifies b
      ensures b.elements == old(b.elements) + [Inserted(AllEntryChecks(Ctx()))]
    {
      var checks := ParameterChecks();
      b.Emit(checks);
    }

    /** The loop of emitParameterChecks: every parameter's check, in declaration order. */
    method ParameterChecks() returns (checks: seq<Instr>)
      ensures checks == AllEntryChecks(Ctx())
    {
      var m := methodModel;
      ghost var ctx := Ctx();
      var slotIndex := if IsStatic(m) then 0 else 1;
      checks := [];
      var paramCount := |m.desc.params|;
      for i := 0 to paramCount
        invariant slotIndex == ParamSlot(m, i)
        invariant checks == EntryChecks(ctx, i)
      {
        var code := ParameterCheckAt(i, slotIndex);
        EntryChecksSnoc(ctx, i);
        checks := checks + code;
        ParamSlotStep(m, i);
        slotIndex := slotIndex + SlotSize(KindOf(m.desc.params[i]));
      }
    }

    /** One turn of the slot loop: the check of parameter i, read from its slot. */
    method ParameterCheckAt(i: nat, slotIndex: nat) returns (code: seq<Instr>)
      requires i < |methodModel.desc.params| && slotIndex == ParamSlot(methodModel, i)
      ensures code == ParamCheckCode(Ctx(), i)
    {
      var kind := KindOf(methodModel.desc.params[i]);
      var target := ParameterCheck(strategy, methodModel, i, kind);
      code := [];
      if target.Some? {
        code := [Load(Reference, slotIndex)] + GenerateCheck(target.value, kind, "Parameter " + NatToString(i));
      }
    }

    /** The switch of accept over the element's kind; anything else is copied unchanged. */
    method HandleElement(b: CodeBuilder, element: CodeElement)
      requires Ctx().Valid()
      modifies b
      ensures b.elements == old(b.elements) + Handle(Ctx(), element)
    {
      if element.Instruction? {
        match element.ins
        case Field(_, _, _, _) => HandleField(b, element); return;
        case Return(_) => HandleReturn(b, element); return;
        case Invoke(_, _, _, _) => HandleInvoke(b, element); return;
        case ArrayStore(_) => HandleArrayStore(b, element); return;
        case ArrayLoad(_) => HandleArrayLoad(b, element); return;
        case Store(_, _) => HandleStore(b, element); return;
        case _ =>
      }
      b.Emit([]);
      b.With(element);
      b.Emit([]);
    }

    /** handleField: a write is checked before it, a read after it and only in checked scope. */
    method HandleField(b: CodeBuilder, element: CodeElement)
      requires Ctx().Valid() && element.Instruction? && element.ins.Field?
      modifies b
      ensures b.elements == old(b.elements) + Handle(Ctx(), element)
    {
      var ins := element.ins;
      if ins.op == PutField || ins.op == PutStatic {
        b.Emit(FieldWriteCheckCode(Ctx(), ins.op, ins.owner, ins.name, ins.fieldType));
        b.With(element);
        b.Emit([]);
      } else {
        b.Emit([]);
        b.With(element);
        b.Emit(if isCheckedScope then FieldReadCheckCode(Ctx(), ins.owner, ins.name, ins.fieldType) else []);
      }
    }

    /** handleReturn: the checked-scope return check, or else the override check of an ARETURN. */
    method HandleReturn(b: CodeBuilder, element: CodeElement)
      requires Ctx().Valid() && element.Instruction? && element.ins.Return?
      modifies b
      ensures b.elements == old(b.elements) + Handle(Ctx(), element)
    {
      if isCheckedScope {
        b.Emit(ReturnCheckCode(Ctx()));
      } else if element.ins.kind == Reference {
        var target := UncheckedOverrideReturnCheck(strategy, classModel, methodModel);
        b.Emit(DupCheck(target, Reference, "Return value of overridden method " + methodModel.name));
      } else {
        b.Emit([]);
      }
      b.With(element);
      b.Emit([]);
    }

    /** handleInvoke: the boundary check after the call, in checked scope. */
    method HandleInvoke(b: CodeBuilder, element: CodeElement)
      requires Ctx().Valid() && element.Instruction? && element.ins.Invoke?
      modifies b
      ensures b.elements == old(b.elements) + Handle(Ctx(), element)
    {
      b.Emit([]);
      b.With(element);
      b.Emit(if isCheckedScope then CallCheckCode(Ctx(), element.ins.owner, element.ins.name, element.ins.desc) else []);
    }

    /** handleArrayStore: the check before the store, in either scope. */
    method HandleArrayStore(b: CodeBuilder, element: CodeElement)
      requires Ctx().Valid() && element.Instruction? && element.ins.ArrayStore?
      modifies b
      ensures b.elements == old(b.elements) + Handle(Ctx(), element)
    {
      b.Emit(ArrayStoreCheckCode(Ctx(), element.ins.kind));
      b.With(element);
      b.Emit([]);
    }

    /** handleArrayLoad: the check after the load, in checked scope. */
    method HandleArrayLoad(b: CodeBuilder, element: CodeElement)
      requires Ctx().Valid() && element.Instruction? && element.ins.ArrayLoad?
      modifies b
      ensures b.elements == old(b.elements) + Handle(Ctx(), element)
    {
      b.Emit([]);
      b.With(element);
      b.Emit(if isCheckedScope then ArrayLoadCheckCode(Ctx(), element.ins.kind) else []);
    }

    /** handleStore: the check before a local store, in checked scope. */
    method HandleStore(b: CodeBuilder, element: CodeElement)
      requires Ctx().Valid() && element.Instruction? && element.ins.Store?
      modifies b
      ensures b.elements == old(b.elements) + Handle(Ctx(), element)
    {
      b.Emit(if isCheckedScope then StoreCheckCode(Ctx(), element.ins.kind, element.ins.slot) else []);
      b.With(element);
      b.Emit([]);
    }
  }

  /** One element of the pass, then the rest. */
  lemma RunStep(handle: CodeElement -> seq<Emitted>, entryChecks: seq<Instr>, entryChecksEmitted: bool,
                done: seq<Emitted>, code: seq<CodeElement>, i: nat)
    requires i < |code|
    ensures done + Run(handle, entryChecks, entryChecksEmitted, code[i..]) ==
      (done + AcceptStep(handle, entryChecks, entryChecksEmitted, code[i]).0) +
      Run(handle, entryChecks, AcceptStep(handle, entryChecks, entryChecksEmitted, code[i]).1, code[i + 1..])
  {
    assert code[i..][1..] == code[i + 1..];
  }

  /** transformCode: a fresh transform fed every element of the code in order. */
  method TransformCode(strategy: Strategy, classModel: ClassModel, methodModel: MethodModel, isCheckedScope: bool,
                       code: seq<CodeElement>) returns (out: seq<Emitted>)
    requires OverrideWalkEnds(strategy, classModel)
    ensures out == Transformed(Context(strategy, classModel, methodModel, isCheckedScope), code)
  {
    ghost var ctx := Context(strategy, classModel, methodModel, isCheckedScope);
    ghost var h, entry := Handler(ctx), AllEntryChecks(ctx);
    var b := new CodeBuilder();
    var t := new EnforcementTransform(strategy, classModel, methodModel, isCheckedScope);
    assert code[0..] == code;
    for i := 0 to |code|
      invariant t.Ctx() == ctx
      invariant Transformed(ctx, code) == b.elements + Run(h, entry, t.entryChecksEmitted, code[i..])
    {
      RunStep(h, entry, t.entryChecksEmitted, b.elements, code, i);
      t.Accept(b, code[i]);
    }
    assert code[|code|..] == [];
    out := b.elements;
  }
}
