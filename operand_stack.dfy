/**
 * An abstract JVM operand stack, enough to state what an inserted check does
 * to the stack. A value of slot size two occupies two entries. Only the
 * instructions that inserted checks and bridge prologues use have an effect
 * here; every other instruction is outside this abstraction (None).
 */
module OperandStack {
  import opened Wrappers
  import opened ClassFile

  /** One stack entry: its verification kind and where it came from (a local slot, or -1 for a constant or call result). */
  datatype Value = Value(kind: TypeKind, origin: int)

  /** The verification kind of a value: boolean, byte, char and short travel as int. */
  function StackKind(k: TypeKind): TypeKind {
    match k
    case Boolean => Int
    case Byte => Int
    case Char => Int
    case Short => Int
    case _ => k
  }

  predicate Category1(v: Value) {
    SlotSize(v.kind) == 1
  }

  /** The entries a value of kind k occupies. */
  function Entries(k: TypeKind, origin: int): seq<Value> {
    seq(SlotSize(k), _ => Value(StackKind(k), origin))
  }

  /** The stack kinds, one per slot, of a parameter list. */
  function SlotKinds(params: seq<ClassDesc>): (r: seq<TypeKind>)
    ensures |r| == SlotSum(params)
  {
    if params == [] then []
    else SlotKinds(params[..|params| - 1]) + seq(SlotSize(KindOf(params[|params| - 1])), _ => StackKind(KindOf(params[|params| - 1])))
  }

  /** The number of slots a parameter list occupies. */
  function SlotSum(params: seq<ClassDesc>): nat {
    if params == [] then 0 else SlotSum(params[..|params| - 1]) + SlotSize(KindOf(params[|params| - 1]))
  }

  /** The top |kinds| entries of s have exactly these kinds. */
  predicate TopHasKinds(s: seq<Value>, kinds: seq<TypeKind>) {
    |kinds| <= |s| && forall i :: 0 <= i < |kinds| ==> s[|s| - |kinds| + i].kind == kinds[i]
  }

  /** The effect of one instruction, with the kinds of the local slots given. */
  function Step(ins: Instr, locals: seq<TypeKind>, s: seq<Value>): Option<seq<Value>> {
    var n := |s|;
    match ins
    case Dup =>
      if n >= 1 && Category1(s[n - 1]) then Some(s + [s[n - 1]]) else None
    case DupX1 =>
      if n >= 2 && Category1(s[n - 1]) && Category1(s[n - 2]) then Some(s[..n - 2] + [s[n - 1], s[n - 2], s[n - 1]]) else None
    case Swap =>
      if n >= 2 && Category1(s[n - 1]) && Category1(s[n - 2]) then Some(s[..n - 2] + [s[n - 1], s[n - 2]]) else None
    case Pop =>
      if n >= 1 && Category1(s[n - 1]) then Some(s[..n - 1]) else None
    case Pop2 =>
      if n >= 2 then Some(s[..n - 2]) else None
    case Ldc(_) =>
      Some(s + [Value(Reference, -1)])
    case Field(op, _, _, t) =>
      if op == GetStatic then Some(s + Entries(KindOf(t), -1)) else None
    case Invoke(op, _, _, desc) =>
      var kinds := SlotKinds(desc.params);
      if op == InvokeStatic && TopHasKinds(s, kinds) then Some(s[..n - |kinds|] + Entries(KindOf(desc.ret), -1)) else None
    case Load(k, slot) =>
      if k != Void && slot + SlotSize(k) <= |locals| && (forall j :: slot <= j < slot + SlotSize(k) ==> locals[j] == StackKind(k))
      then Some(s + Entries(k, slot)) else None
    case _ => None
  }

  /** The effect of an instruction sequence; None when some instruction is ill-typed or outside the abstraction. */
  function Exec(code: seq<Instr>, locals: seq<TypeKind>, s: seq<Value>): Option<seq<Value>>
    decreases |code|
  {
    if code == [] then Some(s)
    else match Step(code[0], locals, s)
      case None => None
      case Some(t) => Exec(code[1..], locals, t)
  }

  /** Running a concatenation runs the first part, then the second on its result. */
  lemma {:induction false} ExecAppend(a: seq<Instr>, b: seq<Instr>, locals: seq<TypeKind>, s: seq<Value>)
    ensures Exec(a + b, locals, s) == (match Exec(a, locals, s) case None => None case Some(t) => Exec(b, locals, t))
    decreases |a|
  {
    if a == [] {
      assert a + b == b;
    } else {
      assert (a + b)[0] == a[0];
      assert (a + b)[1..] == a[1..] + b;
      match Step(a[0], locals, s)
      case None =>
      case Some(t) => ExecAppend(a[1..], b, locals, t);
    }
  }

  /** When the first part runs to t, the concatenation runs as the second part from t. */
  lemma ExecThen(a: seq<Instr>, b: seq<Instr>, locals: seq<TypeKind>, s: seq<Value>, t: seq<Value>)
    requires Exec(a, locals, s) == Some(t)
    ensures Exec(a + b, locals, s) == Exec(b, locals, t)
  {
    ExecAppend(a, b, locals, s);
  }

  /** The pieces of code for the indices below n, in order. */
  function Joined(piece: nat -> seq<Instr>, n: nat): seq<Instr> {
    if n == 0 then [] else Joined(piece, n - 1) + piece(n - 1)
  }

  /** Pieces that each leave a stack as they found it do so in turn. */
  lemma {:induction false} JoinedRestores(piece: nat -> seq<Instr>, n: nat, locals: seq<TypeKind>, s: seq<Value>)
    requires forall i :: 0 <= i < n ==> Exec(piece(i), locals, s) == Some(s)
    ensures Exec(Joined(piece, n), locals, s) == Some(s)
  {
    if n > 0 {
      JoinedRestores(piece, n - 1, locals, s);
      ExecThen(Joined(piece, n - 1), piece(n - 1), locals, s, s);
    }
  }

  /** A one-instruction sequence runs as its step. */
  lemma ExecSingle(ins: Instr, locals: seq<TypeKind>, s: seq<Value>)
    ensures Exec([ins], locals, s) == Step(ins, locals, s)
  {
    assert [ins][1..] == [];
  }
}
