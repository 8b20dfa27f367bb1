/**
 * Class filters: predicates over the class a load event is about, the
 * combinators that build them, the framework safety filter and the
 * explicit class list.
 */
module Filters {
  import opened Wrappers
  import opened JavaString

  /** The class a load event is about; the loader and module are not modelled. A class defined without a name has None. */
  datatype ClassInfo = ClassInfo(internalName: Option<string>)

  /** filter.and(other): accepts what both accept. */
  function And<C(!new)>(a: C -> bool, b: C -> bool): (r: C -> bool)
    ensures forall c :: r(c) == (a(c) && b(c))
  {
    c => a(c) && b(c)
  }

  /** filter.or(other): accepts what either accepts. */
  function Or<C(!new)>(a: C -> bool, b: C -> bool): (r: C -> bool)
    ensures forall c :: r(c) == (a(c) || b(c))
  {
    c => a(c) || b(c)
  }

  /** filter.not(): accepts exactly what the filter rejects. */
  function Not<C(!new)>(a: C -> bool): (r: C -> bool)
    ensures forall c :: r(c) == !a(c)
  {
    c => !a(c)
  }

  function AcceptAll<C(!new)>(): (r: C -> bool)
    ensures forall c :: r(c)
  {
    c => true
  }

  function RejectAll<C(!new)>(): (r: C -> bool)
    ensures forall c :: !r(c)
  {
    c => false
  }

  /** not() twice agrees with the filter itself. */
  lemma NotNot<C(!new)>(a: C -> bool)
    ensures forall c :: Not(Not(a))(c) == a(c)
  {
  }

  /** acceptAll is the identity of and and absorbs or; rejectAll is the identity of or and absorbs and. */
  lemma UnitsAndZeros<C(!new)>(a: C -> bool)
    ensures forall c :: And(AcceptAll<C>(), a)(c) == a(c) && And(a, AcceptAll<C>())(c) == a(c)
    ensures forall c :: Or(RejectAll<C>(), a)(c) == a(c) && Or(a, RejectAll<C>())(c) == a(c)
    ensures forall c :: Or(AcceptAll<C>(), a)(c) && !And(RejectAll<C>(), a)(c)
  {
  }

  /** The package prefixes the framework never instruments: the JDK and the framework itself. */
  const EXCLUDED_PREFIXES: seq<string> := ["java/", "javax/", "sun/", "jdk/", "io/github/eisop/"]

  /** FrameworkSafetyFilter: a named class outside every excluded prefix. */
  function SafetyTest(info: ClassInfo): (r: bool)
    ensures r <==> info.internalName.Some? && forall p :: p in EXCLUDED_PREFIXES ==> !StartsWith(info.internalName.value, p)
  {
    match info.internalName
    case None => false
    case Some(name) =>
      if StartsWith(name, "java/") || StartsWith(name, "javax/") || StartsWith(name, "sun/") || StartsWith(name, "jdk/") then false
      else if StartsWith(name, "io/github/eisop/") then false
      else true
  }

  lemma StartsWithExtend(s: string, t: string, p: string)
    requires StartsWith(s, p)
    ensures StartsWith(s + t, p)
  {
    assert (s + t)[..|p|] == s[..|p|];
  }

  /** Rejection by the safety filter is closed under extending the name. */
  lemma SafetyRejectionPrefixClosed(name: string, suffix: string)
    requires !SafetyTest(ClassInfo(Some(name)))
    ensures !SafetyTest(ClassInfo(Some(name + suffix)))
  {
    var p :| p in EXCLUDED_PREFIXES && StartsWith(name, p);
    StartsWithExtend(name, suffix, p);
  }

  /** ClassListFilter: the normalised internal names it accepts. */
  datatype ClassListFilter = ClassListFilter(allowed: set<string>)

  function StripLeadingSlashes(s: string): string {
    if StartsWith(s, "/") then StripLeadingSlashes(s[1..]) else s
  }

  function DropClassSuffix(s: string): string {
    if EndsWith(s, ".class") then s[..|s| - 6] else s
  }

  /** The internal name a listed spelling stands for: trimmed, leading slashes and a ".class" suffix dropped, dots to slashes. */
  function NormalizedName(name: string): string {
    Replace(DropClassSuffix(StripLeadingSlashes(Trim(name))), '.', '/')
  }

  /** toInternalName, step by step as the source does it. */
  method ToInternalName(name: string) returns (s: string)
    ensures s == NormalizedName(name)
    ensures '.' !in s
  {
    s := Trim(name);
    while StartsWith(s, "/")
      invariant StripLeadingSlashes(s) == StripLeadingSlashes(Trim(name))
      decreases |s|
    {
      s := s[1..];
    }
    if EndsWith(s, ".class") {
      s := s[..|s| - 6];
    }
    s := Replace(s, '.', '/');
  }

  /** Every name a list filter holds for its non-null entries. */
  function AllowedNames(classNames: seq<Option<string>>): set<string> {
    set i | 0 <= i < |classNames| && classNames[i].Some? :: NormalizedName(classNames[i].value)
  }

  /** The constructor: a null list is refused, null entries are skipped, every other entry is normalised. */
  method NewClassListFilter(classNames: Option<seq<Option<string>>>) returns (r: Result<ClassListFilter>)
    ensures classNames.None? ==> r == Raised(NullPointer("classNames"))
    ensures classNames.Some? ==> r == Ok(ClassListFilter(AllowedNames(classNames.value)))
  {
    if classNames.None? {
      return Raised(NullPointer("classNames"));
    }
    var names := classNames.value;
    var allowed: set<string> := {};
    var i := 0;
    while i < |names|
      invariant 0 <= i <= |names|
      invariant allowed == AllowedNames(names[..i])
    {
      AllowedNamesSnoc(names[..i + 1]);
      assert names[..i + 1][..i] == names[..i];
      if names[i].Some? {
        var n := ToInternalName(names[i].value);
        allowed := allowed + {n};
      }
      i := i + 1;
    }
    assert names[..|names|] == names;
    r := Ok(ClassListFilter(allowed));
  }

  lemma AllowedNamesSnoc(names: seq<Option<string>>)
    requires names != []
    ensures AllowedNames(names) == AllowedNames(names[..|names| - 1]) +
      (if names[|names| - 1].Some? then {NormalizedName(names[|names| - 1].value)} else {})
  {
    var init := names[..|names| - 1];
    forall n | n in AllowedNames(names)
      ensures n in AllowedNames(init) + (if names[|names| - 1].Some? then {NormalizedName(names[|names| - 1].value)} else {})
    {
      var i :| 0 <= i < |names| && names[i].Some? && n == NormalizedName(names[i].value);
      if i < |names| - 1 {
        assert init[i] == names[i];
      }
    }
    forall n | n in AllowedNames(init)
      ensures n in AllowedNames(names)
    {
      var i :| 0 <= i < |init| && init[i].Some? && n == NormalizedName(init[i].value);
      assert names[i] == init[i];
    }
  }

  /** test: accepts exactly the listed internal names; a class without a name is never accepted. */
  function ListTest(f: ClassListFilter, info: ClassInfo): (r: bool)
    ensures r ==> info.internalName.Some?
    ensures r <==> info.internalName.Some? && info.internalName.value in f.allowed
  {
    info.internalName.Some? && info.internalName.value in f.allowed
  }

  lemma TrimOfTrimmed(s: string)
    requires s == [] || (s[0] > ' ' && s[|s| - 1] > ' ')
    ensures Trim(s) == s
  {
  }

  lemma ReplaceIdentity(s: string, c: char, d: char)
    requires c !in s
    ensures Replace(s, c, d) == s
  {
  }

  /** A name already in internal form (trimmed, no dot, no leading slash) is its own normalisation. */
  lemma InternalNameIsFixed(n: string)
    requires '.' !in n
    requires n == [] || (n[0] > ' ' && n[0] != '/' && n[|n| - 1] > ' ')
    ensures NormalizedName(n) == n
  {
    TrimOfTrimmed(n);
    NoDotNoClassSuffix(n);
    ReplaceIdentity(n, '.', '/');
  }

  lemma NoDotNoClassSuffix(n: string)
    requires '.' !in n
    ensures !EndsWith(n, ".class")
  {
    if |n| >= 6 {
      assert n[|n| - 6..][0] == n[|n| - 6] != '.';
    }
  }

  /** The three spellings the list accepts (internal, internal with ".class", dotted) all name the same class. */
  lemma SpellingsAgree(n: string)
    requires '.' !in n && n != [] && n[0] > ' ' && n[0] != '/' && n[|n| - 1] > ' '
    requires !EndsWith(n, "/class")
    ensures NormalizedName(n) == n
    ensures NormalizedName(n + ".class") == n
    ensures NormalizedName(Replace(n, '/', '.')) == n
  {
    InternalNameIsFixed(n);
    ClassFileSpelling(n);
    DottedSpelling(n);
  }

  lemma ClassFileSpelling(n: string)
    requires '.' !in n && n != [] && n[0] > ' ' && n[0] != '/'
    ensures NormalizedName(n + ".class") == n
  {
    var withSuffix := n + ".class";
    TrimOfTrimmed(withSuffix);
    assert withSuffix[0] == n[0];
    assert StripLeadingSlashes(withSuffix) == withSuffix;
    assert EndsWith(withSuffix, ".class");
    assert DropClassSuffix(withSuffix) == n;
    ReplaceIdentity(n, '.', '/');
  }

  lemma DottedSpelling(n: string)
    requires '.' !in n && n != [] && n[0] > ' ' && n[0] != '/' && n[|n| - 1] > ' '
    requires !EndsWith(n, "/class")
    ensures NormalizedName(Replace(n, '/', '.')) == n
  {
    var dotted := Replace(n, '/', '.');
    TrimOfTrimmed(dotted);
    assert StripLeadingSlashes(dotted) == dotted;
    DottedHasNoClassSuffix(n);
    ReplaceRoundTrip(n, '/', '.');
  }

  lemma DottedHasNoClassSuffix(n: string)
    requires '.' !in n && !EndsWith(n, "/class")
    ensures !EndsWith(Replace(n, '/', '.'), ".class")
  {
    var dotted := Replace(n, '/', '.');
    if |n| >= 6 {
      var tail := n[|n| - 6..];
      assert tail != "/class";
      var k :| 0 <= k < 6 && tail[k] != "/class"[k];
      assert dotted[|dotted| - 6..][k] == dotted[|n| - 6 + k];
      assert dotted[|n| - 6 + k] != ".class"[k];
    }
  }
}
