/**
 * The filter set-up of the agent's premain: which classes count as checked
 * code (the policy filter) and which classes are parsed at all (the scan
 * filter), from the three system properties runtime.classes,
 * runtime.global and runtime.trustAnnotatedFor.
 */
module RuntimeAgent {
  import opened Wrappers
  import opened JavaString
  import opened Filters
  import opened ClassFile
  import RuntimeTransformer

  /** The properties premain reads: the class list (absent when unset) and the two boolean flags. */
  datatype AgentFlags = AgentFlags(checkedClasses: Option<string>, isGlobalMode: bool, trustAnnotatedFor: bool)

  /** The list is given and is not blank. */
  predicate HasClassList(flags: AgentFlags) {
    flags.checkedClasses.Some? && !IsBlank(flags.checkedClasses.value)
  }

  /** The entries of the comma-separated list, none of them null. */
  function ListEntries(list: string): (r: seq<Option<string>>)
    ensures |r| == |Split(list, ',')|
    ensures forall i :: 0 <= i < |r| ==> r[i] == Some(Split(list, ',')[i])
  {
    var parts := Split(list, ',');
    seq(|parts|, i requires 0 <= i < |parts| => Some(parts[i]))
  }

  /** The class list filter built from the property. */
  function ListFilterOf(list: string): ClassListFilter {
    ClassListFilter(AllowedNames(ListEntries(list)))
  }

  /** Who is checked: safe and listed; nobody when only @AnnotatedFor is trusted; otherwise every safe class. */
  predicate PolicyAccepts(flags: AgentFlags, info: ClassInfo) {
    if HasClassList(flags) then SafetyTest(info) && ListTest(ListFilterOf(flags.checkedClasses.value), info)
    else if flags.trustAnnotatedFor then false
    else SafetyTest(info)
  }

  /** Who is parsed: every safe class under trustAnnotatedFor or global mode, the policy's classes when a list is set, else every safe class. */
  predicate ScanAccepts(flags: AgentFlags, info: ClassInfo) {
    if flags.trustAnnotatedFor || flags.isGlobalMode then SafetyTest(info)
    else if flags.checkedClasses.Some? then PolicyAccepts(flags, info)
    else SafetyTest(info)
  }

  /** The filter part of premain: the two filters start as the safety filter and are reassigned through the if-chains. */
  method Premain(flags: AgentFlags) returns (scanFilter: ClassInfo -> bool, policyFilter: ClassInfo -> bool)
    ensures forall info :: policyFilter(info) == PolicyAccepts(flags, info)
    ensures forall info :: scanFilter(info) == ScanAccepts(flags, info)
  {
    var safeFilter: ClassInfo -> bool := SafetyTest;
    policyFilter := safeFilter;
    scanFilter := safeFilter;

    var checkedClasses := flags.checkedClasses;
    if checkedClasses.Some? && !IsBlank(checkedClasses.value) {
      var built := NewClassListFilter(Some(ListEntries(checkedClasses.value)));
      var listFilter := built.value;
      policyFilter := (info: ClassInfo) => safeFilter(info) && ListTest(listFilter, info);
    } else if flags.trustAnnotatedFor {
      policyFilter := (info: ClassInfo) => false;
    }

    if flags.trustAnnotatedFor {
      scanFilter := safeFilter;
    } else if flags.isGlobalMode {
      scanFilter := safeFilter;
    } else if checkedClasses.Some? {
      scanFilter := policyFilter;
    }
  }

  /** A blank list counts as no list: without trust every safe class is checked, and scanned. */
  lemma BlankListChecksEverySafeClass(flags: AgentFlags, info: ClassInfo)
    requires flags.checkedClasses.Some? && IsBlank(flags.checkedClasses.value) && !flags.trustAnnotatedFor
    ensures PolicyAccepts(flags, info) == SafetyTest(info)
    ensures ScanAccepts(flags, info) == SafetyTest(info)
  {
  }

  /** Blankness follows Character.isWhitespace beyond Latin-1, and a no-break space is not blank. */
  lemma SeparatorListsAreBlank()
    ensures !HasClassList(AgentFlags(Some("\U{3000}"), false, false))
    ensures !HasClassList(AgentFlags(Some(" \t\U{2028}\U{2000}"), false, false))
    ensures HasClassList(AgentFlags(Some("\U{00A0}"), false, false))
  {
    assert "\U{00A0}"[0] == '\U{00A0}';
  }

  /** Every class the policy calls checked is also parsed. */
  lemma PolicyWithinScan(flags: AgentFlags, info: ClassInfo)
    requires PolicyAccepts(flags, info)
    ensures ScanAccepts(flags, info)
  {
  }

  /** Neither filter ever lets through a class the safety filter rejects. */
  lemma FiltersWithinSafety(flags: AgentFlags, info: ClassInfo)
    ensures PolicyAccepts(flags, info) ==> SafetyTest(info)
    ensures ScanAccepts(flags, info) ==> SafetyTest(info)
  {
  }

  /**
   * With a non-blank list, a safe class is checked exactly when its internal
   * name is the normalised form of one of the comma-separated entries.
   */
  lemma ListedClassesChecked(flags: AgentFlags, name: string)
    requires HasClassList(flags) && SafetyTest(ClassInfo(Some(name)))
    ensures PolicyAccepts(flags, ClassInfo(Some(name))) <==>
      exists i :: 0 <= i < |Split(flags.checkedClasses.value, ',')| && NormalizedName(Split(flags.checkedClasses.value, ',')[i]) == name
  {
    var parts := Split(flags.checkedClasses.value, ',');
    var entries := ListEntries(flags.checkedClasses.value);
    if exists i :: 0 <= i < |parts| && NormalizedName(parts[i]) == name {
      var i :| 0 <= i < |parts| && NormalizedName(parts[i]) == name;
      assert entries[i] == Some(parts[i]);
      assert name in AllowedNames(entries);
    }
    if name in AllowedNames(entries) {
      var i :| 0 <= i < |entries| && entries[i].Some? && name == NormalizedName(entries[i].value);
      assert entries[i].value == parts[i];
    }
  }

  /** When only @AnnotatedFor is trusted and no list is given, no class is checked by policy, yet every safe class is parsed. */
  lemma TrustWithoutListChecksNone(flags: AgentFlags, info: ClassInfo)
    requires flags.trustAnnotatedFor && !HasClassList(flags)
    ensures !PolicyAccepts(flags, info)
    ensures ScanAccepts(flags, info) == SafetyTest(info)
  {
  }

  /**
   * With the filters premain builds, the transformer weaves only safe
   * classes and, outside global mode and trustAnnotatedFor, only classes the
   * policy calls checked.
   */
  lemma AgentWeavesOnlyPolicyClasses(flags: AgentFlags, checker: RuntimeTransformer.RuntimeChecker, classes: ClassMap,
                                     className: Option<string>, buffer: Option<ClassModel>)
    ensures var r := RuntimeTransformer.TransformOutcome(
        (info: ClassInfo) => ScanAccepts(flags, info), (info: ClassInfo) => PolicyAccepts(flags, info), checker,
        flags.trustAnnotatedFor, flags.isGlobalMode, classes, className, buffer);
      (r.Some? ==> SafetyTest(ClassInfo(className))) &&
      (r.Some? && !flags.trustAnnotatedFor && !flags.isGlobalMode ==> PolicyAccepts(flags, ClassInfo(className)))
  {
  }
}
