/**
 * Hierarchy resolution: the methods a class inherits from unchecked
 * ancestors without overriding them, found by walking the superclass chain
 * over class-file bytes (the bytecode resolver).
 */
module HierarchyResolver {
  import opened Wrappers
  import opened JavaString
  import opened ClassFile

  /** A method found in an ancestor, with the ancestor that declares it. */
  datatype ParentMethod = ParentMethod(owner: ClassModel, methodModel: MethodModel)

  const OBJECT_BINARY := "java.lang.Object"

  /** The signature a method is matched by: its name followed by its descriptor. */
  function Signature(m: MethodModel): string {
    m.name + MethodDescriptorString(m.desc)
  }

  /** A method a bridge may stand in for: not private, static, final, synthetic or a bridge. */
  predicate Inheritable(m: MethodModel) {
    !HasFlag(m.flags, ACC_PRIVATE) && !HasFlag(m.flags, ACC_STATIC) && !HasFlag(m.flags, ACC_FINAL)
    && !HasFlag(m.flags, ACC_SYNTHETIC) && !HasFlag(m.flags, ACC_BRIDGE)
  }

  /** The binary (dotted) name of a class's superclass, if it has one. */
  function SuperBinaryName(m: ClassModel): Option<string> {
    match m.superclass
    case None => None
    case Some(s) => Some(ToDots(s))
  }

  /** The walk from a binary name reaches a missing class or the top of the chain within fuel steps. */
  predicate WalkEnds(classes: ClassMap, current: Option<string>, fuel: nat)
    decreases fuel
  {
    current.None? || current.value == OBJECT_BINARY || ToSlashes(current.value) !in classes ||
    (fuel > 0 && WalkEnds(classes, SuperBinaryName(classes[ToSlashes(current.value)]), fuel - 1))
  }

  /**
   * The ancestors the walk parses, nearest first: it stops at java.lang.Object,
   * at a name the filter accepts, at a missing class file, or at the top.
   */
  function Ancestors(filter: string -> bool, classes: ClassMap, current: Option<string>, fuel: nat): seq<ClassModel>
    requires WalkEnds(classes, current, fuel)
    decreases fuel
  {
    match current
    case None => []
    case Some(name) =>
      if name == OBJECT_BINARY || filter(name) || ToSlashes(name) !in classes then []
      else [classes[ToSlashes(name)]] + Ancestors(filter, classes, SuperBinaryName(classes[ToSlashes(name)]), fuel - 1)
  }

  /** The inheritable methods of one ancestor, in declaration order. */
  function InheritableOf(owner: ClassModel, methods: seq<MethodModel>): seq<ParentMethod> {
    if methods == [] then []
    else
      var last := methods[|methods| - 1];
      InheritableOf(owner, methods[..|methods| - 1]) + (if Inheritable(last) then [ParentMethod(owner, last)] else [])
  }

  /** The inheritable methods of a list of ancestors, nearest ancestor first. */
  function Candidates(ancestors: seq<ClassModel>): seq<ParentMethod> {
    if ancestors == [] then []
    else Candidates(ancestors[..|ancestors| - 1]) + InheritableOf(ancestors[|ancestors| - 1], ancestors[|ancestors| - 1].methods)
  }

  /** The signatures known after a run of candidates: the class's own ones and every candidate's. */
  function Taken(cands: seq<ParentMethod>, own: set<string>): set<string> {
    if cands == [] then own else Taken(cands[..|cands| - 1], own) + {Signature(cands[|cands| - 1].methodModel)}
  }

  /** The candidates kept: each one whose signature is not yet known when it is reached. */
  function Chosen(cands: seq<ParentMethod>, own: set<string>): seq<ParentMethod> {
    if cands == [] then []
    else
      var init, last := cands[..|cands| - 1], cands[|cands| - 1];
      Chosen(init, own) + (if Signature(last.methodModel) in Taken(init, own) then [] else [last])
  }

  /** The signatures of a list of methods. */
  function SignaturesOf(methods: seq<MethodModel>): set<string> {
    if methods == [] then {} else SignaturesOf(methods[..|methods| - 1]) + {Signature(methods[|methods| - 1])}
  }

  function OwnSignatures(model: ClassModel): set<string> {
    SignaturesOf(model.methods)
  }

  function Elements<T>(s: seq<T>): set<T> {
    set x | x in s
  }

  /** The start of the walk: the superclass's binary name, or java.lang.Object when there is none. */
  function StartName(model: ClassModel): string {
    match SuperBinaryName(model)
    case None => OBJECT_BINARY
    case Some(n) => n
  }

  /** The resolver's answer as a set of parent methods. */
  function UncheckedMethods(filter: string -> bool, classes: ClassMap, model: ClassModel): set<ParentMethod>
    requires WalkEnds(classes, SuperBinaryName(model), |classes|)
  {
    if StartName(model) == OBJECT_BINARY then {}
    else Elements(Chosen(Candidates(Ancestors(filter, classes, SuperBinaryName(model), |classes|)), OwnSignatures(model)))
  }

  /** resolveUncheckedMethods: walk the unchecked ancestors and collect each inherited, not-overridden method once. */
  method ResolveUncheckedMethods(filter: string -> bool, classes: ClassMap, model: ClassModel) returns (bridgesNeeded: set<ParentMethod>)
    requires WalkEnds(classes, SuperBinaryName(model), |classes|)
    ensures bridgesNeeded == UncheckedMethods(filter, classes, model)
  {
    bridgesNeeded := {};
    var implementedSignatures: set<string> := {};
    for k := 0 to |model.methods|
      invariant implementedSignatures == SignaturesOf(model.methods[..k])
    {
      assert model.methods[..k + 1][..k] == model.methods[..k];
      implementedSignatures := implementedSignatures + {Signature(model.methods[k])};
    }
    assert model.methods[..|model.methods|] == model.methods;

    var superName := StartName(model);
    if superName == OBJECT_BINARY {
      return;
    }

    assert Some(superName) == SuperBinaryName(model);
    bridgesNeeded := WalkUncheckedAncestors(filter, classes, Some(superName), implementedSignatures);
  }

  /** The while loop of resolveUncheckedMethods: from the superclass up to the first checked, missing or top ancestor. */
  method WalkUncheckedAncestors(filter: string -> bool, classes: ClassMap, start: Option<string>, own: set<string>)
    returns (bridgesNeeded: set<ParentMethod>)
    requires WalkEnds(classes, start, |classes|)
    ensures bridgesNeeded == Elements(Chosen(Candidates(Ancestors(filter, classes, start, |classes|)), own))
  {
    var found: seq<ParentMethod> := [];
    var implementedSignatures := own;
    var currentName := start;
    ghost var fuel: nat := |classes|;
    ghost var done: seq<ClassModel> := [];
    while currentName.Some? && currentName.value != OBJECT_BINARY
      invariant WalkEnds(classes, currentName, fuel)
      invariant Ancestors(filter, classes, start, |classes|) == done + Ancestors(filter, classes, currentName, fuel)
      invariant implementedSignatures == Taken(Candidates(done), own)
      invariant found == Chosen(Candidates(done), own)
      decreases fuel
    {
      var name := currentName.value;
      if filter(name) {
        AncestorsStop(filter, classes, currentName, fuel);
        break;
      }
      var path := ToSlashes(name);
      if path !in classes {
        AncestorsStop(filter, classes, currentName, fuel);
        break;
      }
      var parentModel := classes[path];
      AncestorsStep(filter, classes, name, fuel);
      ShiftOne(done, parentModel, Ancestors(filter, classes, SuperBinaryName(parentModel), fuel - 1));
      implementedSignatures, found := CollectInherited(parentModel, implementedSignatures, found, done, own);
      done := done + [parentModel];
      currentName := SuperBinaryName(parentModel);
      fuel := fuel - 1;
    }
    AncestorsStop(filter, classes, currentName, fuel);
    assert done + [] == done;
    bridgesNeeded := Elements(found);
  }

  lemma ShiftOne(done: seq<ClassModel>, p: ClassModel, rest: seq<ClassModel>)
    ensures done + ([p] + rest) == (done + [p]) + rest
  {
  }

  /** The body of the walk for one ancestor: each inheritable method whose signature is still unknown is kept. */
  method CollectInherited(parentModel: ClassModel, sigs: set<string>, bridges: seq<ParentMethod>,
                          ghost done: seq<ClassModel>, ghost own: set<string>)
    returns (sigs': set<string>, bridges': seq<ParentMethod>)
    requires sigs == Taken(Candidates(done), own) && bridges == Chosen(Candidates(done), own)
    ensures sigs' == Taken(Candidates(done + [parentModel]), own)
    ensures bridges' == Chosen(Candidates(done + [parentModel]), own)
  {
    ghost var before := Candidates(done);
    CandidatesSnoc(done, parentModel);
    sigs', bridges' := sigs, bridges;
    assert before + InheritableOf(parentModel, parentModel.methods[..0]) == before;
    for j := 0 to |parentModel.methods|
      invariant sigs' == Taken(before + InheritableOf(parentModel, parentModel.methods[..j]), own)
      invariant bridges' == Chosen(before + InheritableOf(parentModel, parentModel.methods[..j]), own)
    {
      sigs', bridges' := CollectMethod(parentModel, j, sigs', bridges', before, own);
    }
    assert parentModel.methods[..|parentModel.methods|] == parentModel.methods;
  }

  /** One method of the ancestor: kept when it is inheritable and its signature is still unknown. */
  method CollectMethod(parentModel: ClassModel, j: nat, sigs: set<string>, bridges: seq<ParentMethod>,
                       ghost before: seq<ParentMethod>, ghost own: set<string>)
    returns (sigs': set<string>, bridges': seq<ParentMethod>)
    requires j < |parentModel.methods|
    requires sigs == Taken(before + InheritableOf(parentModel, parentModel.methods[..j]), own)
    requires bridges == Chosen(before + InheritableOf(parentModel, parentModel.methods[..j]), own)
    ensures sigs' == Taken(before + InheritableOf(parentModel, parentModel.methods[..j + 1]), own)
    ensures bridges' == Chosen(before + InheritableOf(parentModel, parentModel.methods[..j + 1]), own)
  {
    var m := parentModel.methods[j];
    ghost var xs := InheritableOf(parentModel, parentModel.methods[..j]);
    InheritableOfStep(parentModel, parentModel.methods, j);
    sigs', bridges' := sigs, bridges;
    if HasFlag(m.flags, ACC_PRIVATE) || HasFlag(m.flags, ACC_STATIC) || HasFlag(m.flags, ACC_FINAL)
      || HasFlag(m.flags, ACC_SYNTHETIC) || HasFlag(m.flags, ACC_BRIDGE) {
      assert xs + [] == xs;
      return;
    }
    var sig := Signature(m);
    AppendStep(before, xs, ParentMethod(parentModel, m), own);
    if sig in sigs {
      return;
    }
    sigs' := sigs + {sig};
    bridges' := bridges + [ParentMethod(parentModel, m)];
  }

  lemma CandidatesSnoc(done: seq<ClassModel>, p: ClassModel)
    ensures Candidates(done + [p]) == Candidates(done) + InheritableOf(p, p.methods)
  {
    assert (done + [p])[..|done|] == done;
  }

  lemma InheritableOfStep(owner: ClassModel, methods: seq<MethodModel>, j: nat)
    requires j < |methods|
    ensures InheritableOf(owner, methods[..j + 1]) ==
      InheritableOf(owner, methods[..j]) + (if Inheritable(methods[j]) then [ParentMethod(owner, methods[j])] else [])
  {
    assert methods[..j + 1][..j] == methods[..j];
  }

  /** Taking one more candidate: its signature becomes known, and it is kept when it was not known before. */
  lemma AppendStep(before: seq<ParentMethod>, xs: seq<ParentMethod>, pm: ParentMethod, own: set<string>)
    ensures Taken(before + (xs + [pm]), own) == Taken(before + xs, own) + {Signature(pm.methodModel)}
    ensures Chosen(before + (xs + [pm]), own) ==
      Chosen(before + xs, own) + (if Signature(pm.methodModel) in Taken(before + xs, own) then [] else [pm])
  {
    var prev := before + xs;
    assert before + (xs + [pm]) == prev + [pm];
    assert (prev + [pm])[..|prev|] == prev;
  }

  /** One step of the walk over a parsed, unchecked ancestor. */
  lemma AncestorsStep(filter: string -> bool, classes: ClassMap, name: string, fuel: nat)
    requires WalkEnds(classes, Some(name), fuel)
    requires name != OBJECT_BINARY && !filter(name) && ToSlashes(name) in classes
    ensures fuel > 0 && WalkEnds(classes, SuperBinaryName(classes[ToSlashes(name)]), fuel - 1)
    ensures Ancestors(filter, classes, Some(name), fuel) ==
      [classes[ToSlashes(name)]] + Ancestors(filter, classes, SuperBinaryName(classes[ToSlashes(name)]), fuel - 1)
  {
  }

  /** The walk ends at once at java.lang.Object, at a name the filter accepts, and at a missing class. */
  lemma AncestorsStop(filter: string -> bool, classes: ClassMap, current: Option<string>, fuel: nat)
    requires WalkEnds(classes, current, fuel)
    requires current.None? || current.value == OBJECT_BINARY || filter(current.value) || ToSlashes(current.value) !in classes
    ensures Ancestors(filter, classes, current, fuel) == []
  {
  }

  // ---- What the resolved set means ----

  /** Every candidate comes from an ancestor in the list and is inheritable. */
  lemma {:induction false} CandidatesInheritable(ancestors: seq<ClassModel>, pm: ParentMethod)
    requires pm in Candidates(ancestors)
    ensures pm.owner in ancestors && pm.methodModel in pm.owner.methods && Inheritable(pm.methodModel)
  {
    if ancestors != [] {
      var last := ancestors[|ancestors| - 1];
      if pm in Candidates(ancestors[..|ancestors| - 1]) {
        CandidatesInheritable(ancestors[..|ancestors| - 1], pm);
      } else {
        InheritableOfSound(last, last.methods, pm);
      }
    }
  }

  lemma {:induction false} InheritableOfSound(owner: ClassModel, methods: seq<MethodModel>, pm: ParentMethod)
    requires pm in InheritableOf(owner, methods)
    ensures pm.owner == owner && pm.methodModel in methods && Inheritable(pm.methodModel)
  {
    if methods != [] && pm in InheritableOf(owner, methods[..|methods| - 1]) {
      InheritableOfSound(owner, methods[..|methods| - 1], pm);
    }
  }

  /** Every inheritable method of an ancestor is one of its candidates. */
  lemma {:induction false} InheritableOfComplete(owner: ClassModel, methods: seq<MethodModel>, m: MethodModel)
    requires m in methods && Inheritable(m)
    ensures ParentMethod(owner, m) in InheritableOf(owner, methods)
  {
    var init := methods[..|methods| - 1];
    if m != methods[|methods| - 1] {
      assert m in init by { var i :| 0 <= i < |methods| && methods[i] == m; assert init[i] == m; }
      InheritableOfComplete(owner, init, m);
    }
  }

  /** Every inheritable method of a visited ancestor is a candidate of the walk. */
  lemma {:induction false} CandidatesComplete(ancestors: seq<ClassModel>, a: ClassModel, m: MethodModel)
    requires a in ancestors && m in a.methods && Inheritable(m)
    ensures ParentMethod(a, m) in Candidates(ancestors)
  {
    var init := ancestors[..|ancestors| - 1];
    if a == ancestors[|ancestors| - 1] {
      InheritableOfComplete(a, a.methods, m);
    } else {
      assert a in init by { var i :| 0 <= i < |ancestors| && ancestors[i] == a; assert init[i] == a; }
      CandidatesComplete(init, a, m);
    }
  }

  /** The known signatures are the class's own ones plus those of every candidate seen. */
  lemma {:induction false} TakenIsUnion(cands: seq<ParentMethod>, own: set<string>, sig: string)
    ensures sig in Taken(cands, own) <==> sig in own || exists i :: 0 <= i < |cands| && Signature(cands[i].methodModel) == sig
  {
    if cands != [] {
      var init := cands[..|cands| - 1];
      TakenIsUnion(init, own, sig);
      if exists i :: 0 <= i < |init| && Signature(init[i].methodModel) == sig {
        var i :| 0 <= i < |init| && Signature(init[i].methodModel) == sig;
        assert cands[i] == init[i];
      }
      if exists i :: 0 <= i < |cands| && Signature(cands[i].methodModel) == sig {
        var i :| 0 <= i < |cands| && Signature(cands[i].methodModel) == sig;
        if i < |init| {
          assert init[i] == cands[i];
        }
      }
    }
  }

  /** Every kept candidate is a candidate whose signature is not one of the class's own. */
  lemma {:induction false} ChosenAreNew(cands: seq<ParentMethod>, own: set<string>)
    ensures forall x :: x in Chosen(cands, own) ==> x in cands && Signature(x.methodModel) !in own
  {
    if cands != [] {
      var init := cands[..|cands| - 1];
      ChosenAreNew(init, own);
      TakenHasOwn(init, own);
    }
  }

  lemma {:induction false} TakenHasOwn(cands: seq<ParentMethod>, own: set<string>)
    ensures own <= Taken(cands, own)
  {
    if cands != [] {
      TakenHasOwn(cands[..|cands| - 1], own);
    }
  }

  /** Every kept candidate's signature is known afterwards. */
  lemma {:induction false} ChosenAreTaken(cands: seq<ParentMethod>, own: set<string>)
    ensures forall x :: x in Chosen(cands, own) ==> Signature(x.methodModel) in Taken(cands, own)
  {
    if cands != [] {
      ChosenAreTaken(cands[..|cands| - 1], own);
    }
  }

  /** No two kept candidates share a signature. */
  lemma {:induction false} ChosenDistinct(cands: seq<ParentMethod>, own: set<string>)
    ensures forall i, j :: 0 <= i < j < |Chosen(cands, own)| ==>
      Signature(Chosen(cands, own)[i].methodModel) != Signature(Chosen(cands, own)[j].methodModel)
  {
    if cands != [] {
      var init := cands[..|cands| - 1];
      ChosenDistinct(init, own);
      ChosenAreTaken(init, own);
      var c := Chosen(init, own);
      assert forall i :: 0 <= i < |c| ==> c[i] in c;
    }
  }

  /** Each kept candidate is the first candidate with its signature: the nearest ancestor's method wins. */
  lemma {:induction false} ChosenFirstOccurrence(cands: seq<ParentMethod>, own: set<string>, x: ParentMethod)
    requires x in Chosen(cands, own)
    ensures exists i :: 0 <= i < |cands| && cands[i] == x && forall k :: 0 <= k < i ==> Signature(cands[k].methodModel) != Signature(x.methodModel)
  {
    var init := cands[..|cands| - 1];
    if x in Chosen(init, own) {
      ChosenFirstOccurrence(init, own, x);
      var i :| 0 <= i < |init| && init[i] == x && forall k :: 0 <= k < i ==> Signature(init[k].methodModel) != Signature(x.methodModel);
      assert cands[i] == x;
      assert forall k :: 0 <= k < i ==> cands[k] == init[k];
    } else {
      assert x == cands[|cands| - 1];
      assert Signature(x.methodModel) !in Taken(init, own);
      forall k | 0 <= k < |init|
        ensures Signature(cands[k].methodModel) != Signature(x.methodModel)
      {
        TakenIsUnion(init, own, Signature(x.methodModel));
        assert cands[k] == init[k];
      }
    }
  }

  /** Every candidate's signature is either the class's own or carried by a kept candidate. */
  lemma {:induction false} ChosenCoversCandidates(cands: seq<ParentMethod>, own: set<string>, c: ParentMethod)
    requires c in cands
    ensures Signature(c.methodModel) in own || exists x :: x in Chosen(cands, own) && Signature(x.methodModel) == Signature(c.methodModel)
  {
    var init := cands[..|cands| - 1];
    var last := cands[|cands| - 1];
    if c in init {
      ChosenCoversCandidates(init, own, c);
      if Signature(c.methodModel) !in own {
        var x :| x in Chosen(init, own) && Signature(x.methodModel) == Signature(c.methodModel);
        assert x in Chosen(cands, own);
      }
    } else if Signature(last.methodModel) in Taken(init, own) {
      TakenIsUnion(init, own, Signature(last.methodModel));
      if Signature(c.methodModel) !in own {
        var i :| 0 <= i < |init| && Signature(init[i].methodModel) == Signature(c.methodModel);
        ChosenCoversCandidates(init, own, init[i]);
        var x :| x in Chosen(init, own) && Signature(x.methodModel) == Signature(c.methodModel);
        assert x in Chosen(cands, own);
      }
    } else {
      assert last in Chosen(cands, own);
    }
  }

  /**
   * The resolved methods are inheritable methods of unchecked ancestors, none
   * overridden by the class, at most one per signature.
   */
  lemma ResolvedMethodsAreBridgeable(filter: string -> bool, classes: ClassMap, model: ClassModel)
    requires WalkEnds(classes, SuperBinaryName(model), |classes|)
    ensures forall pm :: pm in UncheckedMethods(filter, classes, model) ==>
      Inheritable(pm.methodModel) && pm.methodModel in pm.owner.methods && Signature(pm.methodModel) !in OwnSignatures(model)
      && pm.owner in Ancestors(filter, classes, SuperBinaryName(model), |classes|)
    ensures forall p, q ::
      (p in UncheckedMethods(filter, classes, model) && q in UncheckedMethods(filter, classes, model)
       && Signature(p.methodModel) == Signature(q.methodModel)) ==> p == q
  {
    var cands := Candidates(Ancestors(filter, classes, SuperBinaryName(model), |classes|));
    var own := OwnSignatures(model);
    ChosenAreNew(cands, own);
    ChosenDistinct(cands, own);
    if StartName(model) != OBJECT_BINARY {
      forall pm | pm in UncheckedMethods(filter, classes, model)
        ensures Inheritable(pm.methodModel) && pm.methodModel in pm.owner.methods
          && pm.owner in Ancestors(filter, classes, SuperBinaryName(model), |classes|)
      {
        CandidatesInheritable(Ancestors(filter, classes, SuperBinaryName(model), |classes|), pm);
      }
      var chosen := Chosen(cands, own);
      forall p, q | p in chosen && q in chosen && Signature(p.methodModel) == Signature(q.methodModel)
        ensures p == q
      {
        var i :| 0 <= i < |chosen| && chosen[i] == p;
        var j :| 0 <= j < |chosen| && chosen[j] == q;
        assert i == j;
      }
    }
  }

  /**
   * Nothing is missed: every inheritable method of a visited ancestor whose
   * signature the class does not declare has its signature resolved, carried
   * by the first inheritable declaration the walk meets. A final, static or
   * private declaration nearer to the class does not hide it.
   */
  lemma ResolvedMethodsComplete(filter: string -> bool, classes: ClassMap, model: ClassModel, a: ClassModel, m: MethodModel)
    requires WalkEnds(classes, SuperBinaryName(model), |classes|) && StartName(model) != OBJECT_BINARY
    requires a in Ancestors(filter, classes, SuperBinaryName(model), |classes|) && m in a.methods && Inheritable(m)
    requires Signature(m) !in OwnSignatures(model)
    ensures exists x :: x in UncheckedMethods(filter, classes, model) && Signature(x.methodModel) == Signature(m)
  {
    var cands := Candidates(Ancestors(filter, classes, SuperBinaryName(model), |classes|));
    CandidatesComplete(Ancestors(filter, classes, SuperBinaryName(model), |classes|), a, m);
    ChosenCoversCandidates(cands, OwnSignatures(model), ParentMethod(a, m));
  }

  /** A class without a superclass, or directly under java.lang.Object, inherits nothing to bridge. */
  lemma NothingAboveObject(filter: string -> bool, classes: ClassMap, model: ClassModel)
    requires model.superclass.None? || model.superclass == Some(OBJECT_INTERNAL)
    ensures WalkEnds(classes, SuperBinaryName(model), |classes|)
    ensures UncheckedMethods(filter, classes, model) == {}
  {
    if model.superclass.Some? {
      assert ToDots(OBJECT_INTERNAL) == OBJECT_BINARY;
    }
  }
}
