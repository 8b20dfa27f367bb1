/**
 * The nullness check generator: the instructions that check the value on
 * top of the operand stack, and what they do to that stack.
 */
module NullnessCheckGenerator {
  import opened Wrappers
  import opened ClassFile
  import opened OperandStack
  import opened Runtime

  const VERIFIER := "io/github/eisop/runtimeframework/checker/nullness/NullnessRuntimeVerifier"
  const ATTRIBUTION_KIND := "io/github/eisop/runtimeframework/runtime/AttributionKind"
  const CHECK_METHOD := "checkNotNull"

  /** checkNotNull(Object, String) */
  const DESC_DEFAULT := MethodDesc([L(OBJECT_INTERNAL), L("java/lang/String")], V)
  /** checkNotNull(Object, String, AttributionKind) */
  const DESC_ATTRIBUTED := MethodDesc([L(OBJECT_INTERNAL), L("java/lang/String"), L(ATTRIBUTION_KIND)], V)

  /** A check generator is immutable; withAttribution yields a new one. */
  datatype CheckGenerator = NullnessCheckGenerator(attribution: AttributionKind)

  /** The no-argument constructor: blame the frame that holds the check. */
  function DefaultGenerator(): (g: CheckGenerator)
    ensures g.attribution == Local
  {
    NullnessCheckGenerator(Local)
  }

  function WithAttribution(g: CheckGenerator, kind: AttributionKind): (r: CheckGenerator)
    ensures r.attribution == kind
  {
    NullnessCheckGenerator(kind)
  }

  function Message(diagnosticName: string): string {
    diagnosticName + " must be NonNull"
  }

  /**
   * The check for a value of the given kind on top of the stack: for a
   * reference, push the message and call the verifier (with the attribution
   * constant when it is not LOCAL); for anything else, discard the value.
   */
  function GenerateCheck(g: CheckGenerator, kind: TypeKind, diagnosticName: string): seq<Instr> {
    if kind == Reference then
      [Ldc(Message(diagnosticName))] +
      (if g.attribution == Local then [Invoke(InvokeStatic, VERIFIER, CHECK_METHOD, DESC_DEFAULT)]
       else [Field(GetStatic, ATTRIBUTION_KIND, AttributionName(g.attribution), L(ATTRIBUTION_KIND)),
             Invoke(InvokeStatic, VERIFIER, CHECK_METHOD, DESC_ATTRIBUTED)])
    else if SlotSize(kind) == 1 then [Pop]
    else [Pop2]
  }

  /** The verifier call a check sequence makes: its message and attribution, read back from the instructions. */
  function CalledCheck(code: seq<Instr>): Option<(string, AttributionKind)> {
    if |code| == 2 && code[0].Ldc? && code[1] == Invoke(InvokeStatic, VERIFIER, CHECK_METHOD, DESC_DEFAULT) then
      Some((code[0].constant, Local))
    else if |code| == 3 && code[0].Ldc? && code[1].Field? && code[1].op == GetStatic && code[1].owner == ATTRIBUTION_KIND
         && code[2] == Invoke(InvokeStatic, VERIFIER, CHECK_METHOD, DESC_ATTRIBUTED)
         && AttributionNamed(code[1].name).Some? then
      Some((code[0].constant, AttributionNamed(code[1].name).value))
    else None
  }

  /** A reference check calls the verifier with "<name> must be NonNull" and the generator's own attribution. */
  lemma ReferenceCheckCallsVerifier(g: CheckGenerator, diagnosticName: string)
    ensures CalledCheck(GenerateCheck(g, Reference, diagnosticName)) == Some((Message(diagnosticName), g.attribution))
    ensures g.attribution == Local <==> |GenerateCheck(g, Reference, diagnosticName)| == 2
  {
  }

  /** A check for a non-reference value never calls the verifier. */
  lemma PrimitiveCheckOnlyDiscards(g: CheckGenerator, kind: TypeKind, diagnosticName: string)
    requires kind != Reference
    ensures GenerateCheck(g, kind, diagnosticName) == (if SlotSize(kind) == 1 then [Pop] else [Pop2])
    ensures CalledCheck(GenerateCheck(g, kind, diagnosticName)).None?
  {
  }

  /** The top entries of s hold one value of kind k. */
  predicate TopIs(s: seq<Value>, k: TypeKind) {
    |s| >= SlotSize(k) && forall i :: |s| - SlotSize(k) <= i < |s| ==> s[i].kind == StackKind(k)
  }

  /** A check consumes exactly the checked value and leaves the rest of the stack alone. */
  lemma GenerateCheckConsumes(g: CheckGenerator, k: TypeKind, diagnosticName: string, locals: seq<TypeKind>, s: seq<Value>)
    requires k != Void && TopIs(s, k)
    ensures Exec(GenerateCheck(g, k, diagnosticName), locals, s) == Some(s[..|s| - SlotSize(k)])
  {
    if k == Reference {
      var ldc := Ldc(Message(diagnosticName));
      var code := GenerateCheck(g, k, diagnosticName);
      assert code == [ldc] + code[1..];
      ExecAppend([ldc], code[1..], locals, s);
      ExecSingle(ldc, locals, s);
      if g.attribution == Local {
        LocalCallConsumes(locals, s + [Value(Reference, -1)]);
        assert (s + [Value(Reference, -1)])[..|s| - 1] == s[..|s| - 1];
      } else {
        AttributedCallConsumes(g.attribution, locals, s + [Value(Reference, -1)]);
        assert code[1..] == [Field(GetStatic, ATTRIBUTION_KIND, AttributionName(g.attribution), L(ATTRIBUTION_KIND)),
                             Invoke(InvokeStatic, VERIFIER, CHECK_METHOD, DESC_ATTRIBUTED)];
        assert (s + [Value(Reference, -1)])[..|s| - 1] == s[..|s| - 1];
      }
    } else if SlotSize(k) == 1 {
      ExecSingle(Pop, locals, s);
    } else {
      ExecSingle(Pop2, locals, s);
    }
  }

  lemma DefaultKinds()
    ensures SlotKinds(DESC_DEFAULT.params) == [Reference, Reference]
  {
    var p := DESC_DEFAULT.params;
    assert p[..1] == [L(OBJECT_INTERNAL)];
    assert p[..1][..0] == [];
    assert SlotKinds(p[..1]) == [Reference];
  }

  lemma AttributedKinds()
    ensures SlotKinds(DESC_ATTRIBUTED.params) == [Reference, Reference, Reference]
  {
    var p := DESC_ATTRIBUTED.params;
    assert p[..2] == DESC_DEFAULT.params;
    DefaultKinds();
  }

  /** The two-argument verifier call pops the value and the message. */
  lemma LocalCallConsumes(locals: seq<TypeKind>, s: seq<Value>)
    requires |s| >= 2 && s[|s| - 1].kind == Reference && s[|s| - 2].kind == Reference
    ensures Exec([Invoke(InvokeStatic, VERIFIER, CHECK_METHOD, DESC_DEFAULT)], locals, s) == Some(s[..|s| - 2])
  {
    DefaultKinds();
    ExecSingle(Invoke(InvokeStatic, VERIFIER, CHECK_METHOD, DESC_DEFAULT), locals, s);
    assert TopHasKinds(s, SlotKinds(DESC_DEFAULT.params));
    assert s[..|s| - 2] + Entries(Void, -1) == s[..|s| - 2];
  }

  /** Loading the attribution constant and calling the three-argument verifier pops the value and the message. */
  lemma AttributedCallConsumes(kind: AttributionKind, locals: seq<TypeKind>, s: seq<Value>)
    requires |s| >= 2 && s[|s| - 1].kind == Reference && s[|s| - 2].kind == Reference
    ensures Exec([Field(GetStatic, ATTRIBUTION_KIND, AttributionName(kind), L(ATTRIBUTION_KIND)),
                  Invoke(InvokeStatic, VERIFIER, CHECK_METHOD, DESC_ATTRIBUTED)], locals, s) == Some(s[..|s| - 2])
  {
    var getAttr := Field(GetStatic, ATTRIBUTION_KIND, AttributionName(kind), L(ATTRIBUTION_KIND));
    var call := Invoke(InvokeStatic, VERIFIER, CHECK_METHOD, DESC_ATTRIBUTED);
    assert [getAttr, call] == [getAttr] + [call];
    ExecAppend([getAttr], [call], locals, s);
    ExecSingle(getAttr, locals, s);
    var s1 := s + [Value(Reference, -1)];
    assert Entries(Reference, -1) == [Value(Reference, -1)];
    AttributedKinds();
    assert TopHasKinds(s1, SlotKinds(DESC_ATTRIBUTED.params));
    ExecSingle(call, locals, s1);
    assert s1[..|s1| - 3] + Entries(Void, -1) == s[..|s| - 2];
  }

  /** aload of a slot holding a reference, then a reference check, leaves the stack as it was. */
  lemma LoadCheckRestores(g: CheckGenerator, slot: nat, diagnosticName: string, locals: seq<TypeKind>, s: seq<Value>)
    requires slot < |locals| && locals[slot] == Reference
    ensures Exec([Load(Reference, slot)] + GenerateCheck(g, Reference, diagnosticName), locals, s) == Some(s)
  {
    var load := Load(Reference, slot);
    var pushed := s + [Value(Reference, slot)];
    assert Entries(Reference, slot) == [Value(Reference, slot)];
    assert Step(load, locals, s) == Some(pushed);
    ExecSingle(load, locals, s);
    ExecThen([load], GenerateCheck(g, Reference, diagnosticName), locals, s, pushed);
    assert TopIs(pushed, Reference);
    GenerateCheckConsumes(g, Reference, diagnosticName, locals, pushed);
    assert pushed[..|pushed| - SlotSize(Reference)] == s;
  }

  /** dup followed by a reference check leaves the stack as it was. */
  lemma DupCheckRestores(g: CheckGenerator, diagnosticName: string, locals: seq<TypeKind>, s: seq<Value>)
    requires |s| >= 1 && s[|s| - 1].kind == Reference
    ensures Exec([Dup] + GenerateCheck(g, Reference, diagnosticName), locals, s) == Some(s)
  {
    ExecAppend([Dup], GenerateCheck(g, Reference, diagnosticName), locals, s);
    ExecSingle(Dup, locals, s);
    var s1 := s + [s[|s| - 1]];
    GenerateCheckConsumes(g, Reference, diagnosticName, locals, s1);
    assert s1[..|s1| - 1] == s;
  }

  /**
   * dup_x1, a reference check, swap: the check on the value under an object
   * reference (the PUTFIELD shape) leaves the stack as it was.
   */
  lemma DupX1CheckSwapRestores(g: CheckGenerator, diagnosticName: string, locals: seq<TypeKind>, s: seq<Value>)
    requires |s| >= 2 && s[|s| - 1].kind == Reference && Category1(s[|s| - 2])
    ensures Exec([DupX1] + GenerateCheck(g, Reference, diagnosticName) + [Swap], locals, s) == Some(s)
  {
    var n := |s|;
    var check := GenerateCheck(g, Reference, diagnosticName);
    ExecAppend([DupX1] + check, [Swap], locals, s);
    ExecAppend([DupX1], check, locals, s);
    ExecSingle(DupX1, locals, s);
    var s1 := s[..n - 2] + [s[n - 1], s[n - 2], s[n - 1]];
    GenerateCheckConsumes(g, Reference, diagnosticName, locals, s1);
    var s2 := s1[..|s1| - 1];
    assert s2 == s[..n - 2] + [s[n - 1], s[n - 2]];
    ExecSingle(Swap, locals, s2);
    assert s2[..n - 2] + [s2[n - 1], s2[n - 2]] == s;
  }
}
