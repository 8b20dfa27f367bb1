/**
 * The declarative description of a type system: which qualifier annotation
 * means "enforce with this generator" and which means "no check", plus the
 * behaviour of an unannotated type.
 */
module Configuration {
  import opened Wrappers
  import opened NullnessCheckGenerator

  datatype ValidationKind = Enforce | Noop

  /** What an annotation (or the default) asks for; an ENFORCE entry carries its generator. */
  datatype ConfigEntry = ConfigEntry(kind: ValidationKind, verifier: Option<CheckGenerator>)

  /** An entry built by onEnforce carries a generator and one built by onNoop carries none. */
  predicate RegisteredEntryShape(e: ConfigEntry) {
    (e.kind == Enforce ==> e.verifier.Some?) && (e.kind == Noop ==> e.verifier.None?)
  }

  /** An ENFORCE default needs a generator; a NOOP default may carry one unused. */
  predicate DefaultEntryShape(e: ConfigEntry) {
    e.kind == Enforce ==> e.verifier.Some?
  }

  /** The value a strategy reads: the registry keyed by annotation descriptor, and the default entry. */
  datatype Configuration = Configuration(registry: map<string, ConfigEntry>, defaultEntry: ConfigEntry)
  {
    ghost predicate WellFormed() {
      (forall d :: d in registry ==> RegisteredEntryShape(registry[d])) && DefaultEntryShape(defaultEntry)
    }
  }

  type ValidConfiguration = c: Configuration | c.WellFormed()
    witness Configuration(map[], ConfigEntry(Noop, None))

  /** find: the entry registered for an annotation descriptor, or null. */
  function FindEntry(c: Configuration, annotationDescriptor: string): (r: Option<ConfigEntry>)
    ensures r.Some? <==> annotationDescriptor in c.registry
    ensures r.Some? ==> r.value == c.registry[annotationDescriptor]
  {
    if annotationDescriptor in c.registry then Some(c.registry[annotationDescriptor]) else None
  }

  /** The mutable builder, keyed by the annotation class's descriptor string. */
  class TypeSystemConfiguration {
    var registry: map<string, ConfigEntry>
    var defaultEntry: ConfigEntry

    ghost predicate Valid()
      reads this
    {
      Snapshot().WellFormed()
    }

    function Snapshot(): Configuration
      reads this
    {
      Configuration(registry, defaultEntry)
    }

    /** A fresh configuration registers nothing and treats unannotated types as NOOP. */
    constructor ()
      ensures Valid()
      ensures registry == map[] && defaultEntry == ConfigEntry(Noop, None)
    {
      registry := map[];
      defaultEntry := ConfigEntry(Noop, None);
    }

    /** Registers an annotation as enforcing; a later registration of the same annotation replaces an earlier one. */
    method OnEnforce(annotationDescriptor: string, verifier: CheckGenerator)
      requires Valid()
      modifies this
      ensures Valid()
      ensures registry == old(registry)[annotationDescriptor := ConfigEntry(Enforce, Some(verifier))]
      ensures defaultEntry == old(defaultEntry)
    {
      registry := registry[annotationDescriptor := ConfigEntry(Enforce, Some(verifier))];
    }

    /** Registers an annotation as requiring no check. */
    method OnNoop(annotationDescriptor: string)
      requires Valid()
      modifies this
      ensures Valid()
      ensures registry == old(registry)[annotationDescriptor := ConfigEntry(Noop, None)]
      ensures defaultEntry == old(defaultEntry)
    {
      registry := registry[annotationDescriptor := ConfigEntry(Noop, None)];
    }

    /** Sets the behaviour of unannotated types; an ENFORCE default must name its generator. */
    method WithDefault(kind: ValidationKind, verifier: Option<CheckGenerator>)
      requires Valid()
      requires kind == Enforce ==> verifier.Some?
      modifies this
      ensures Valid()
      ensures defaultEntry == ConfigEntry(kind, verifier)
      ensures registry == old(registry)
    {
      defaultEntry := ConfigEntry(kind, verifier);
    }

    method Find(annotationDescriptor: string) returns (r: Option<ConfigEntry>)
      ensures r == FindEntry(Snapshot(), annotationDescriptor)
      ensures r.None? <==> annotationDescriptor !in registry
    {
      r := if annotationDescriptor in registry then Some(registry[annotationDescriptor]) else None;
    }

    method GetDefault() returns (r: ConfigEntry)
      ensures r == defaultEntry
    {
      r := defaultEntry;
    }
  }

  /** Registering one annotation leaves the lookup of every other annotation unchanged. */
  lemma RegistrationIsLocal(c: Configuration, d: string, e: ConfigEntry, other: string)
    requires other != d
    ensures FindEntry(Configuration(c.registry[d := e], c.defaultEntry), other) == FindEntry(c, other)
  {
  }
}
