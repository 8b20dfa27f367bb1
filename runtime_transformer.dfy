/**
 * The load-time transformer: for each class the JVM is about to define it
 * decides whether to leave the bytes alone, weave the class as checked code,
 * or (in global mode) weave it as unchecked code, and it caches per package
 * whether the package's package-info class is annotated for the checker.
 *
 * A class's bytes are given already parsed (None when they do not parse);
 * what the loader can find is a finite map from internal names to classes.
 * How a checker weaves a class for a given scope filter is the checker's own
 * business and is a parameter of the model.
 */
module RuntimeTransformer {
  import opened Wrappers
  import opened JavaString
  import opened ClassFile
  import opened Filters
  import AnnotatedForFilter

  /**
   * A runtime checker: its name, and the class transform of the instrumenter
   * it hands out for a scope filter (an exception while weaving is Raised).
   */
  datatype RuntimeChecker = RuntimeChecker(name: string, weave: (ClassInfo -> bool) -> ClassModel -> Result<ClassModel>)

  /** Names of classes the transformer never touches. */
  const SKIPPED_PREFIXES: seq<string> := ["java/", "sun/", "jdk/", "org/gradle"]

  predicate SkippedName(className: Option<string>) {
    className.Some? && exists p :: p in SKIPPED_PREFIXES && StartsWith(className.value, p)
  }

  /** The package of a class: its internal name up to the last '/'; a class of the unnamed package has none. */
  function PackageOf(className: string): (r: Option<string>)
    ensures r.None? <==> '/' !in className
    ensures r.Some? ==> StartsWith(className, r.value + "/") && '/' !in className[|r.value| + 1..]
  {
    var lastSlash := LastIndexOf(className, '/');
    if lastSlash == -1 then None
    else
      assert className[..lastSlash + 1] == className[..lastSlash] + "/";
      Some(className[..lastSlash])
  }

  /** The package's package-info class can be found and is annotated for the system. */
  predicate PackageAnnotated(classes: ClassMap, system: string, packageName: string) {
    var path := packageName + "/" + AnnotatedForFilter.PACKAGE_INFO;
    path in classes && AnnotatedForFilter.HasAnnotatedFor(classes[path], system)
  }

  /** hasPackageLevelAnnotation, without the cache: false for the unnamed package, else whether its package-info is annotated. */
  predicate PackageLevelAnnotated(classes: ClassMap, system: string, className: string) {
    match PackageOf(className)
    case None => false
    case Some(p) => PackageAnnotated(classes, system, p)
  }

  /** The transformer's package lookup agrees with the @AnnotatedFor filter's. */
  lemma PackageLookupsAgree(classes: ClassMap, system: string, className: string)
    ensures PackageLevelAnnotated(classes, system, className) == AnnotatedForFilter.PackageMarked(system, classes, className)
  {
    match PackageOf(className)
    case None =>
    case Some(p) =>
      assert AnnotatedForFilter.PackageInfoOf(className) == Some(p + "/" + AnnotatedForFilter.PACKAGE_INFO);
  }

  /**
   * The dynamic filter handed to the instrumenter: the decision already taken
   * for the class being transformed, the policy filter for every other class.
   */
  function DynamicFilter(policyFilter: ClassInfo -> bool, className: Option<string>, isChecked: bool): (r: ClassInfo -> bool)
    ensures forall info: ClassInfo :: info.internalName.Some? && info.internalName == className ==> r(info) == isChecked
    ensures forall info: ClassInfo :: info.internalName != className ==> r(info) == policyFilter(info)
  {
    (info: ClassInfo) => if info.internalName.Some? && info.internalName == className then isChecked else policyFilter(info)
  }

  /**
   * Whether the class is checked: the policy filter's answer, else (when
   * @AnnotatedFor is trusted) the class's own marker, else its package's. The
   * package lookup of a class without a name raises NullPointerException.
   */
  function CheckedDecision(policyFilter: ClassInfo -> bool, checker: RuntimeChecker, trustAnnotatedFor: bool,
                           classes: ClassMap, className: Option<string>, model: ClassModel): (r: Result<bool>)
    ensures r.Raised? ==> className.None? && r.error.NullPointer?
    ensures r == Ok(true) <==>
      policyFilter(ClassInfo(className)) ||
      (trustAnnotatedFor && (AnnotatedForFilter.HasAnnotatedFor(model, checker.name) ||
        (className.Some? && PackageLevelAnnotated(classes, checker.name, className.value))))
  {
    if policyFilter(ClassInfo(className)) then Ok(true)
    else if !trustAnnotatedFor then Ok(false)
    else if AnnotatedForFilter.HasAnnotatedFor(model, checker.name) then Ok(true)
    else if className.None? then Raised(NullPointer("className"))
    else Ok(PackageLevelAnnotated(classes, checker.name, className.value))
  }

  /**
   * What transform returns for a class: None ("no change", a null array in
   * the source) or the woven class.
   */
  function TransformOutcome(scanFilter: ClassInfo -> bool, policyFilter: ClassInfo -> bool, checker: RuntimeChecker,
                            trustAnnotatedFor: bool, isGlobalMode: bool, classes: ClassMap,
                            className: Option<string>, buffer: Option<ClassModel>): Option<ClassModel>
  {
    if SkippedName(className) || !scanFilter(ClassInfo(className)) || buffer.None? then None
    else match CheckedDecision(policyFilter, checker, trustAnnotatedFor, classes, className, buffer.value)
      case Raised(_) => None
      case Ok(isChecked) =>
        if !isChecked && !isGlobalMode then None
        else match checker.weave(DynamicFilter(policyFilter, className, isChecked))(buffer.value)
          case Raised(_) => None
          case Ok(woven) => Some(woven)
  }

  /** A ClassFileTransformer with its filters, its checker and its two flags; global mode is an explicit input. */
  class RuntimeTransformer {
    const scanFilter: ClassInfo -> bool
    const policyFilter: ClassInfo -> bool
    const checker: RuntimeChecker
    const trustAnnotatedFor: bool
    const isGlobalMode: bool
    /** The classes the loader can find, by internal name. */
    const classes: ClassMap
    /** Per package: whether its package-info class is annotated for the checker. */
    var packageCache: map<string, bool>

    /** Every cached answer is the answer a fresh lookup would give. */
    ghost predicate Valid()
      reads this
    {
      forall p :: p in packageCache ==> packageCache[p] == PackageAnnotated(classes, checker.name, p)
    }

    constructor (scanFilter: ClassInfo -> bool, policyFilter: ClassInfo -> bool, checker: RuntimeChecker,
                 trustAnnotatedFor: bool, isGlobalMode: bool, classes: ClassMap)
      ensures this.scanFilter == scanFilter && this.policyFilter == policyFilter && this.checker == checker
      ensures this.trustAnnotatedFor == trustAnnotatedFor && this.isGlobalMode == isGlobalMode
      ensures this.classes == classes && packageCache == map[]
      ensures Valid()
    {
      this.scanFilter := scanFilter;
      this.policyFilter := policyFilter;
      this.checker := checker;
      this.trustAnnotatedFor := trustAnnotatedFor;
      this.isGlobalMode := isGlobalMode;
      this.classes := classes;
      packageCache := map[];
    }

    /**
     * hasPackageLevelAnnotation: the cached answer for the class's package,
     * else a lookup of its package-info class, whose answer is cached.
     */
    method HasPackageLevelAnnotation(className: Option<string>) returns (r: Result<bool>)
      requires Valid()
      modifies this
      ensures Valid()
      ensures className.None? ==> r == Raised(NullPointer("className"))
      ensures className.Some? ==> r == Ok(PackageLevelAnnotated(classes, checker.name, className.value))
      ensures forall p :: p in old(packageCache) ==> p in packageCache && packageCache[p] == old(packageCache)[p]
      ensures forall p :: p in packageCache ==> p in old(packageCache) || (className.Some? && PackageOf(className.value) == Some(p))
    {
      if className.None? {
        return Raised(NullPointer("className"));
      }
      var name := className.value;
      var lastSlash := LastIndexOf(name, '/');
      if lastSlash == -1 {
        return Ok(false);
      }
      var packageName := name[..lastSlash];
      if packageName in packageCache {
        return Ok(packageCache[packageName]);
      }
      var packageInfoPath := packageName + "/" + AnnotatedForFilter.PACKAGE_INFO;
      var found := false;
      if packageInfoPath in classes {
        found := AnnotatedForFilter.HasAnnotatedFor(classes[packageInfoPath], checker.name);
      }
      packageCache := packageCache[packageName := found];
      r := Ok(found);
    }

    /** transform: the decision flow, then the checker's weave under the dynamic filter; any exception leaves the class unchanged. */
    method Transform(className: Option<string>, buffer: Option<ClassModel>) returns (r: Option<ClassModel>)
      requires Valid()
      modifies this
      ensures Valid()
      ensures r == TransformOutcome(scanFilter, policyFilter, checker, trustAnnotatedFor, isGlobalMode, classes, className, buffer)
      ensures forall p :: p in old(packageCache) ==> p in packageCache && packageCache[p] == old(packageCache)[p]
    {
      if className.Some? && (StartsWith(className.value, "java/") || StartsWith(className.value, "sun/")
          || StartsWith(className.value, "jdk/") || StartsWith(className.value, "org/gradle")) {
        return None;
      }
      assert !SkippedName(className);
      var info := ClassInfo(className);
      if !scanFilter(info) {
        return None;
      }
      if buffer.None? {
        return None;
      }
      var classModel := buffer.value;
      var isChecked := policyFilter(info);
      if !isChecked && trustAnnotatedFor {
        if AnnotatedForFilter.HasAnnotatedFor(classModel, checker.name) {
          isChecked := true;
        } else {
          var packageLevel := HasPackageLevelAnnotation(className);
          if packageLevel.Raised? {
            return None;
          }
          isChecked := packageLevel.value;
        }
      }
      assert CheckedDecision(policyFilter, checker, trustAnnotatedFor, classes, className, classModel) == Ok(isChecked);
      if !isChecked && !isGlobalMode {
        return None;
      }
      var dynamicFilter := DynamicFilter(policyFilter, className, isChecked);
      var woven := checker.weave(dynamicFilter)(classModel);
      if woven.Raised? {
        return None;
      }
      r := Some(woven.value);
    }
  }

  // ---- What the decision flow guarantees ----

  /**
   * A class is woven exactly when its name is not skipped, the scan filter
   * accepts it, it parses, the decision does not raise, it is checked or
   * global mode is on, and the weave does not raise; it is then woven with
   * the decision as its own scope.
   */
  lemma WovenExactly(scanFilter: ClassInfo -> bool, policyFilter: ClassInfo -> bool, checker: RuntimeChecker,
                     trustAnnotatedFor: bool, isGlobalMode: bool, classes: ClassMap,
                     className: Option<string>, buffer: Option<ClassModel>)
    ensures var r := TransformOutcome(scanFilter, policyFilter, checker, trustAnnotatedFor, isGlobalMode, classes, className, buffer);
      r.Some? <==>
        !SkippedName(className) && scanFilter(ClassInfo(className)) && buffer.Some? &&
        (var d := CheckedDecision(policyFilter, checker, trustAnnotatedFor, classes, className, buffer.value);
         d.Ok? && (d.value || isGlobalMode) &&
         checker.weave(DynamicFilter(policyFilter, className, d.value))(buffer.value).Ok?)
  {
  }

  /** A class under one of the JDK, sun, jdk or Gradle prefixes is never woven. */
  lemma SkippedNeverWoven(scanFilter: ClassInfo -> bool, policyFilter: ClassInfo -> bool, checker: RuntimeChecker,
                          trustAnnotatedFor: bool, isGlobalMode: bool, classes: ClassMap,
                          name: string, buffer: Option<ClassModel>)
    requires StartsWith(name, "java/") || StartsWith(name, "sun/") || StartsWith(name, "jdk/") || StartsWith(name, "org/gradle")
    ensures TransformOutcome(scanFilter, policyFilter, checker, trustAnnotatedFor, isGlobalMode, classes, Some(name), buffer).None?
  {
    if StartsWith(name, "java/") {
      assert SKIPPED_PREFIXES[0] == "java/";
    } else if StartsWith(name, "sun/") {
      assert SKIPPED_PREFIXES[1] == "sun/";
    } else if StartsWith(name, "jdk/") {
      assert SKIPPED_PREFIXES[2] == "jdk/";
    } else {
      assert SKIPPED_PREFIXES[3] == "org/gradle";
    }
  }

  /** Outside global mode an unchecked class is left unchanged. */
  lemma UncheckedNeedsGlobalMode(scanFilter: ClassInfo -> bool, policyFilter: ClassInfo -> bool, checker: RuntimeChecker,
                                 trustAnnotatedFor: bool, classes: ClassMap, className: Option<string>, model: ClassModel)
    requires CheckedDecision(policyFilter, checker, trustAnnotatedFor, classes, className, model) == Ok(false)
    ensures TransformOutcome(scanFilter, policyFilter, checker, trustAnnotatedFor, false, classes, className, Some(model)).None?
  {
  }

  /** Switching global mode on never un-weaves a class, nor changes how a woven class is woven. */
  lemma GlobalModeOnlyAdds(scanFilter: ClassInfo -> bool, policyFilter: ClassInfo -> bool, checker: RuntimeChecker,
                           trustAnnotatedFor: bool, classes: ClassMap, className: Option<string>, buffer: Option<ClassModel>)
    requires TransformOutcome(scanFilter, policyFilter, checker, trustAnnotatedFor, false, classes, className, buffer).Some?
    ensures TransformOutcome(scanFilter, policyFilter, checker, trustAnnotatedFor, true, classes, className, buffer)
         == TransformOutcome(scanFilter, policyFilter, checker, trustAnnotatedFor, false, classes, className, buffer)
  {
  }

  /**
   * A class that trusts @AnnotatedFor and carries the checker's marker is
   * woven as checked code: its own name is in scope for the weave.
   */
  lemma MarkedClassWovenChecked(scanFilter: ClassInfo -> bool, policyFilter: ClassInfo -> bool, checker: RuntimeChecker,
                                isGlobalMode: bool, classes: ClassMap, name: string, model: ClassModel)
    requires !SkippedName(Some(name)) && scanFilter(ClassInfo(Some(name)))
    requires AnnotatedForFilter.HasAnnotatedFor(model, checker.name)
    ensures CheckedDecision(policyFilter, checker, true, classes, Some(name), model) == Ok(true)
    ensures TransformOutcome(scanFilter, policyFilter, checker, true, isGlobalMode, classes, Some(name), Some(model))
         == (match checker.weave(DynamicFilter(policyFilter, Some(name), true))(model)
             case Raised(_) => None
             case Ok(woven) => Some(woven))
    ensures DynamicFilter(policyFilter, Some(name), true)(ClassInfo(Some(name)))
  {
  }
}
