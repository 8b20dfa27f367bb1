/**
 * The @AnnotatedFor filter: a class is accepted when it, or its package's
 * package-info class, carries @AnnotatedFor naming the target type system.
 * Answers are cached by internal name; the cache never changes an answer.
 */
module AnnotatedForFilter {
  import opened Wrappers
  import opened JavaString
  import opened ClassFile
  import opened Filters

  const ANNOTATED_FOR_DESC := "Lio/github/eisop/runtimeframework/qual/AnnotatedFor;"
  const PACKAGE_INFO := "package-info"

  /** One element named "value" holding an array that contains the string targetSystem. */
  predicate NamesSystem(e: AnnotationElement, targetSystem: string) {
    e.name == "value" && e.value.OfArray? && OfString(targetSystem) in e.value.values
  }

  predicate MarksSystem(a: Annotation, targetSystem: string) {
    a.descriptor == ANNOTATED_FOR_DESC && exists e :: e in a.elements && NamesSystem(e, targetSystem)
  }

  function AnyElementNames(elements: seq<AnnotationElement>, targetSystem: string): (r: bool)
    ensures r <==> exists e :: e in elements && NamesSystem(e, targetSystem)
  {
    if elements == [] then false
    else NamesSystem(elements[0], targetSystem) || AnyElementNames(elements[1..], targetSystem)
  }

  function AnyAnnotationMarks(annotations: seq<Annotation>, targetSystem: string): (r: bool)
    ensures r <==> exists a :: a in annotations && MarksSystem(a, targetSystem)
  {
    if annotations == [] then false
    else
      var head := annotations[0].descriptor == ANNOTATED_FOR_DESC && AnyElementNames(annotations[0].elements, targetSystem);
      assert head == MarksSystem(annotations[0], targetSystem);
      assert annotations == [annotations[0]] + annotations[1..];
      head || AnyAnnotationMarks(annotations[1..], targetSystem)
  }

  /** hasAnnotatedFor: some runtime-visible @AnnotatedFor on the class names targetSystem in its value array. */
  function HasAnnotatedFor(model: ClassModel, targetSystem: string): (r: bool)
    ensures r <==> exists a :: a in model.annotations && MarksSystem(a, targetSystem)
  {
    AnyAnnotationMarks(model.annotations, targetSystem)
  }

  /** The package-info class of a class's package; a class in the unnamed package has none. */
  function PackageInfoOf(className: string): (r: Option<string>)
    ensures r.None? <==> '/' !in className
  {
    var lastSlash := LastIndexOf(className, '/');
    if lastSlash == -1 then None else Some(className[..lastSlash] + "/" + PACKAGE_INFO)
  }

  /** What a test answers, or that the recursion never ends (a stack overflow in the source). */
  datatype Outcome = Answer(accepted: bool) | Diverges

  /** Every cached answer survives, unchanged. */
  predicate CacheExtends(before: map<string, bool>, after: map<string, bool>) {
    forall n :: n in before ==> n in after && after[n] == before[n]
  }

  /** test(ClassModel): cached answer, else the class's own marker, else its package's; the answer is cached. */
  function TestModelSpec(targetSystem: string, classes: ClassMap, cache: map<string, bool>, model: ClassModel, fuel: nat)
    : (r: (Outcome, map<string, bool>))
    ensures CacheExtends(cache, r.1)
    ensures r.0.Answer? ==> model.thisClass in r.1 && r.1[model.thisClass] == r.0.accepted
    decreases fuel, 1
  {
    var name := model.thisClass;
    if name in cache then (Answer(cache[name]), cache)
    else if HasAnnotatedFor(model, targetSystem) then (Answer(true), cache[name := true])
    else
      var (o, after) := PackageLevelSpec(targetSystem, classes, cache, name, fuel);
      match o
      case Diverges => (Diverges, after)
      case Answer(b) => (Answer(b), after[name := b])
  }

  /** hasPackageLevelAnnotation: test the package-info class of the class's package; each such step uses one unit of fuel. */
  function PackageLevelSpec(targetSystem: string, classes: ClassMap, cache: map<string, bool>, className: string, fuel: nat)
    : (r: (Outcome, map<string, bool>))
    ensures CacheExtends(cache, r.1)
    ensures '/' !in className ==> r == (Answer(false), cache)
    decreases fuel, 0
  {
    match PackageInfoOf(className)
    case None => (Answer(false), cache)
    case Some(packageInfo) =>
      if fuel == 0 then (Diverges, cache)
      else TestInfoSpec(targetSystem, classes, cache, ClassInfo(Some(packageInfo)), fuel - 1)
  }

  /** test(ClassInfo): a nameless class is rejected; otherwise cached answer, else load and test, absent meaning false. */
  function TestInfoSpec(targetSystem: string, classes: ClassMap, cache: map<string, bool>, info: ClassInfo, fuel: nat)
    : (r: (Outcome, map<string, bool>))
    ensures CacheExtends(cache, r.1)
    ensures info.internalName.None? ==> r == (Answer(false), cache)
    ensures r.0.Answer? && info.internalName.Some? ==> info.internalName.value in r.1 && r.1[info.internalName.value] == r.0.accepted
    decreases fuel, 2
  {
    match info.internalName
    case None => (Answer(false), cache)
    case Some(name) =>
      if name in cache then (Answer(cache[name]), cache)
      else if name !in classes then (Answer(false), cache[name := false])
      else
        var (o, after) := TestModelSpec(targetSystem, classes, cache, classes[name], fuel);
        match o
        case Diverges => (Diverges, after)
        case Answer(b) => (Answer(b), after[name := b])
  }

  /** The filter object: its target system, the classes its loader can find, and its cache. */
  class AnnotatedForFilter {
    const targetSystem: string
    const classes: ClassMap
    var cache: map<string, bool>

    constructor (targetSystem: string, classes: ClassMap)
      ensures this.targetSystem == targetSystem && this.classes == classes && cache == map[]
    {
      this.targetSystem := targetSystem;
      this.classes := classes;
      cache := map[];
    }

    method TestModel(model: ClassModel, fuel: nat) returns (r: Outcome)
      modifies this
      ensures (r, cache) == TestModelSpec(targetSystem, classes, old(cache), model, fuel)
      decreases fuel, 1
    {
      var className := model.thisClass;
      if className in cache {
        return Answer(cache[className]);
      }
      var result := HasAnnotatedFor(model, targetSystem);
      if !result {
        var o := HasPackageLevelAnnotation(className, fuel);
        if o.Diverges? {
          return Diverges;
        }
        result := o.accepted;
      }
      cache := cache[className := result];
      r := Answer(result);
    }

    method TestInfo(info: ClassInfo, fuel: nat) returns (r: Outcome)
      modifies this
      ensures (r, cache) == TestInfoSpec(targetSystem, classes, old(cache), info, fuel)
      decreases fuel, 2
    {
      if info.internalName.None? {
        return Answer(false);
      }
      var className := info.internalName.value;
      if className in cache {
        return Answer(cache[className]);
      }
      var result := false;
      if className in classes {
        var o := TestModel(classes[className], fuel);
        if o.Diverges? {
          return Diverges;
        }
        result := o.accepted;
      }
      cache := cache[className := result];
      r := Answer(result);
    }

    method HasPackageLevelAnnotation(className: string, fuel: nat) returns (r: Outcome)
      modifies this
      ensures (r, cache) == PackageLevelSpec(targetSystem, classes, old(cache), className, fuel)
      decreases fuel, 0
    {
      var lastSlash := LastIndexOf(className, '/');
      if lastSlash == -1 {
        return Answer(false);
      }
      if fuel == 0 {
        return Diverges;
      }
      var packageName := className[..lastSlash];
      r := TestInfo(ClassInfo(Some(packageName + "/" + PACKAGE_INFO)), fuel - 1);
    }
  }

  // ---- What the answers mean ----

  /** Every loadable class is stored under its own name. */
  predicate NamesConsistent(classes: ClassMap) {
    forall n :: n in classes ==> classes[n].thisClass == n
  }

  /** The package-info class of the class's package exists and carries the marker. */
  predicate PackageMarked(targetSystem: string, classes: ClassMap, className: string) {
    var pi := PackageInfoOf(className);
    pi.Some? && pi.value in classes && HasAnnotatedFor(classes[pi.value], targetSystem)
  }

  /** The class carries the marker itself, or its package does. */
  predicate AnnotatedForSystem(targetSystem: string, classes: ClassMap, model: ClassModel) {
    HasAnnotatedFor(model, targetSystem) || PackageMarked(targetSystem, classes, model.thisClass)
  }

  /** The class can be found and is annotated for the system. */
  predicate Accepts(targetSystem: string, classes: ClassMap, name: string) {
    name in classes && AnnotatedForSystem(targetSystem, classes, classes[name])
  }

  predicate CacheSound(targetSystem: string, classes: ClassMap, cache: map<string, bool>) {
    forall n :: n in cache ==> cache[n] == Accepts(targetSystem, classes, n)
  }

  /** The package of a package-info class is the package it was made from. */
  lemma PackageInfoOfPackageInfo(pkg: string)
    ensures PackageInfoOf(pkg + "/" + PACKAGE_INFO) == Some(pkg + "/" + PACKAGE_INFO)
  {
    var s := pkg + "/" + PACKAGE_INFO;
    LastIndexOfAppend(pkg + "/", PACKAGE_INFO, '/');
    assert LastIndexOf(pkg + "/", '/') == |pkg|;
    assert s[..|pkg|] == pkg;
  }

  /** A package-info class is accepted exactly when it carries the marker itself. */
  lemma PackageInfoAccepted(targetSystem: string, classes: ClassMap, className: string)
    requires NamesConsistent(classes) && PackageInfoOf(className).Some?
    ensures Accepts(targetSystem, classes, PackageInfoOf(className).value) == PackageMarked(targetSystem, classes, className)
  {
    var pi := PackageInfoOf(className).value;
    PackageInfoOfPackageInfo(className[..LastIndexOf(className, '/')]);
  }

  /** A terminating test of a class by name answers whether it is annotated for the system, and keeps the cache sound. */
  lemma {:induction false} TestInfoSound(targetSystem: string, classes: ClassMap, cache: map<string, bool>, info: ClassInfo, fuel: nat)
    requires NamesConsistent(classes) && CacheSound(targetSystem, classes, cache)
    ensures var r := TestInfoSpec(targetSystem, classes, cache, info, fuel);
      CacheSound(targetSystem, classes, r.1) &&
      (r.0.Answer? ==> r.0.accepted == (info.internalName.Some? && Accepts(targetSystem, classes, info.internalName.value)))
    decreases fuel, 2
  {
    match info.internalName
    case None =>
    case Some(name) =>
      if name !in cache && name in classes {
        TestModelSound(targetSystem, classes, cache, classes[name], fuel);
      }
  }

  /** A terminating test of the class being transformed answers whether it or its package is annotated. */
  lemma {:induction false} TestModelSound(targetSystem: string, classes: ClassMap, cache: map<string, bool>, model: ClassModel, fuel: nat)
    requires NamesConsistent(classes) && CacheSound(targetSystem, classes, cache)
    requires Lookup(classes, model.thisClass) == Some(model)
    ensures var r := TestModelSpec(targetSystem, classes, cache, model, fuel);
      CacheSound(targetSystem, classes, r.1) &&
      (r.0.Answer? ==> r.0.accepted == AnnotatedForSystem(targetSystem, classes, model))
    decreases fuel, 1
  {
    if model.thisClass !in cache && !HasAnnotatedFor(model, targetSystem) {
      PackageLevelSound(targetSystem, classes, cache, model.thisClass, fuel);
    }
  }

  lemma {:induction false} PackageLevelSound(targetSystem: string, classes: ClassMap, cache: map<string, bool>, className: string, fuel: nat)
    requires NamesConsistent(classes) && CacheSound(targetSystem, classes, cache)
    ensures var r := PackageLevelSpec(targetSystem, classes, cache, className, fuel);
      CacheSound(targetSystem, classes, r.1) &&
      (r.0.Answer? ==> r.0.accepted == PackageMarked(targetSystem, classes, className))
    decreases fuel, 0
  {
    var pi := PackageInfoOf(className);
    if pi.Some? && fuel > 0 {
      TestInfoSound(targetSystem, classes, cache, ClassInfo(pi), fuel - 1);
      PackageInfoAccepted(targetSystem, classes, className);
    }
  }

  /**
   * An existing package-info class without the marker makes the test of
   * itself recurse into itself: no amount of fuel brings an answer.
   */
  lemma {:induction false} UnmarkedPackageInfoDiverges(targetSystem: string, classes: ClassMap, cache: map<string, bool>, pkg: string, fuel: nat)
    requires pkg + "/" + PACKAGE_INFO in classes
    requires classes[pkg + "/" + PACKAGE_INFO].thisClass == pkg + "/" + PACKAGE_INFO
    requires !HasAnnotatedFor(classes[pkg + "/" + PACKAGE_INFO], targetSystem)
    requires pkg + "/" + PACKAGE_INFO !in cache
    ensures TestInfoSpec(targetSystem, classes, cache, ClassInfo(Some(pkg + "/" + PACKAGE_INFO)), fuel).0 == Diverges
    decreases fuel
  {
    var pi := pkg + "/" + PACKAGE_INFO;
    PackageInfoOfPackageInfo(pkg);
    if fuel > 0 {
      UnmarkedPackageInfoDiverges(targetSystem, classes, cache, pkg, fuel - 1);
    }
    assert PackageLevelSpec(targetSystem, classes, cache, pi, fuel).0 == Diverges;
    assert TestModelSpec(targetSystem, classes, cache, classes[pi], fuel).0 == Diverges;
  }
}
