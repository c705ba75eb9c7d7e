/**
 * The domain event registry of the capability service: an append-only table
 * of (event type name, event instance type, topic) registrations, queried by
 * name and by type. Lookups behave like LINQ's SingleOrDefault: no match is
 * reported as a MessagingException and more than one match as the
 * InvalidOperationException that SingleOrDefault throws.
 */
module EventRegistry {
  import opened Wrappers
  import opened Clr

  datatype DomainEventRegistration = DomainEventRegistration(eventType: string, eventInstanceType: ClrType, topic: string)

  /** A domain event, known to the registry only by its runtime type. */
  datatype DomainEvent = DomainEvent(runtimeType: ClrType)

  const MessagingExceptionType := OtherType("DFDS.CapabilityService.WebApi.Infrastructure.Messaging.MessagingException")

  function NoTopicError(eventType: string): Exception
  {
    Exception(MessagingExceptionType,
      "Error! Could not determine \"topic name\" due to no registration was found for event type \"" + eventType + "\"!")
  }

  function NoTypeNameError(eventInstanceType: ClrType): Exception
  {
    Exception(MessagingExceptionType,
      "Error! Could not determine \"event type name\" due to no registration was found for type " + FullName(eventInstanceType) + "!")
  }

  /** What Enumerable.SingleOrDefault throws when more than one element satisfies the predicate. */
  const MoreThanOneMatch := InvalidOperation("Sequence contains more than one matching element")

  /** The two ways a lookup fails are told apart by the type of the exception. */
  lemma LookupErrorsDiffer()
    ensures MessagingExceptionType != MoreThanOneMatch.exceptionType
  {
    assert |MessagingExceptionType.fullName| != |InvalidOperationExceptionType.fullName|;
  }

  /** The two predicates the registry queries with: a registration's event type name, or its event instance type. */
  datatype Query = ByName(eventType: string) | ByType(eventInstanceType: ClrType)

  predicate Satisfies(registration: DomainEventRegistration, q: Query)
  {
    match q
    case ByName(name) => registration.eventType == name
    case ByType(t) => registration.eventInstanceType == t
  }

  /** Enumerable.Any */
  function Any(s: seq<DomainEventRegistration>, q: Query): (b: bool)
    ensures b <==> exists i :: 0 <= i < |s| && Satisfies(s[i], q)
  {
    if s == [] then false
    else
      assert forall i :: 0 < i < |s| ==> s[i] == s[1..][i - 1];
      Satisfies(s[0], q) || Any(s[1..], q)
  }

  datatype Single = NoMatch | OneMatch(value: DomainEventRegistration) | ManyMatches

  /** Enumerable.SingleOrDefault: no element, the one element, or several elements satisfying `q`. */
  function SingleOrDefault(s: seq<DomainEventRegistration>, q: Query): (r: Single)
    ensures r.NoMatch? <==> forall i :: 0 <= i < |s| ==> !Satisfies(s[i], q)
    ensures r.ManyMatches? <==> exists i, j :: 0 <= i < j < |s| && Satisfies(s[i], q) && Satisfies(s[j], q)
    ensures r.OneMatch? ==> r.value in s && Satisfies(r.value, q)
  {
    if s == [] then NoMatch
    else
      var rest := SingleOrDefault(s[1..], q);
      assert forall i :: 0 < i < |s| ==> s[i] == s[1..][i - 1];
      if Satisfies(s[0], q) then
        if rest.NoMatch? then OneMatch(s[0])
        else
          assert exists j :: 0 < j < |s| && Satisfies(s[j], q);
          ManyMatches
      else
        assert rest.ManyMatches? ==> exists i, j :: 0 < i < j < |s| && Satisfies(s[i], q) && Satisfies(s[j], q);
        rest
  }

  /** The error a lookup reports when nothing matches. */
  function NoMatchError(q: Query): (e: Exception)
    ensures e.exceptionType == MessagingExceptionType
  {
    match q
    case ByName(name) => NoTopicError(name)
    case ByType(t) => NoTypeNameError(t)
  }

  /** The field a lookup returns: the topic for a name, the event type name for a type. */
  function Field(registration: DomainEventRegistration, q: Query): string
  {
    if q.ByName? then registration.topic else registration.eventType
  }

  /**
   * The lookup both queries share: SingleOrDefault over the registrations,
   * then the MessagingException when nothing matched and the field of the one
   * match; more than one match is what SingleOrDefault throws.
   */
  function Find(registrations: seq<DomainEventRegistration>, q: Query): (r: Result<string, Exception>)
    ensures r.Failure? && r.error.exceptionType == MessagingExceptionType <==>
      forall i :: 0 <= i < |registrations| ==> !Satisfies(registrations[i], q)
    ensures r.Failure? && r.error.exceptionType == MessagingExceptionType ==> r.error == NoMatchError(q)
    ensures r == Failure(MoreThanOneMatch) <==>
      exists i, j :: 0 <= i < j < |registrations| && Satisfies(registrations[i], q) && Satisfies(registrations[j], q)
    ensures r.Success? ==>
      exists i :: 0 <= i < |registrations| && Satisfies(registrations[i], q) && r.value == Field(registrations[i], q)
  {
    match SingleOrDefault(registrations, q)
    case NoMatch =>
      LookupErrorsDiffer();
      Failure(NoMatchError(q))
    case OneMatch(registration) =>
      assert registration in registrations;
      Success(Field(registration, q))
    case ManyMatches =>
      LookupErrorsDiffer();
      Failure(MoreThanOneMatch)
  }

  class DomainEventRegistry {
    /** The registrations in the order they were made (the Registrations property). */
    var registrations: seq<DomainEventRegistration>

    constructor ()
      ensures registrations == []
    {
      registrations := [];
    }

    /** Register<TEvent>(eventTypeName, topicName), with TEvent passed as a type value; returns the registry itself. */
    method Register(eventTypeName: string, eventInstanceType: ClrType, topicName: string) returns (manager: DomainEventRegistry)
      modifies this
      ensures registrations == old(registrations) + [DomainEventRegistration(eventTypeName, eventInstanceType, topicName)]
      ensures manager == this
    {
      registrations := registrations + [DomainEventRegistration(eventTypeName, eventInstanceType, topicName)];
      manager := this;
    }

    function IsRegistered(eventInstanceType: ClrType): (b: bool)
      reads this
      ensures b <==> exists i :: 0 <= i < |registrations| && registrations[i].eventInstanceType == eventInstanceType
    {
      Any(registrations, ByType(eventInstanceType))
    }

    /** GetTopicFor: the topic of the one registration under the name; a MessagingException when there is none. */
    function GetTopicFor(eventType: string): (r: Result<string, Exception>)
      reads this
      ensures r.Failure? && r.error.exceptionType == MessagingExceptionType <==>
        forall i :: 0 <= i < |registrations| ==> registrations[i].eventType != eventType
      ensures r.Failure? && r.error.exceptionType == MessagingExceptionType ==> r.error == NoTopicError(eventType)
      ensures r == Failure(MoreThanOneMatch) <==>
        exists i, j :: 0 <= i < j < |registrations| && registrations[i].eventType == eventType && registrations[j].eventType == eventType
      ensures r.Success? ==>
        exists i :: 0 <= i < |registrations| && registrations[i].eventType == eventType && r.value == registrations[i].topic
    {
      Find(registrations, ByName(eventType))
    }

    /** GetTypeNameFor: the event type name of the one registration of the event's type; a MessagingException when there is none. */
    function GetTypeNameFor(domainEvent: DomainEvent): (r: Result<string, Exception>)
      reads this
      ensures r.Failure? && r.error.exceptionType == MessagingExceptionType <==>
        forall i :: 0 <= i < |registrations| ==> registrations[i].eventInstanceType != domainEvent.runtimeType
      ensures r.Failure? && r.error.exceptionType == MessagingExceptionType ==> r.error == NoTypeNameError(domainEvent.runtimeType)
      ensures r == Failure(MoreThanOneMatch) <==>
        exists i, j :: 0 <= i < j < |registrations| &&
          registrations[i].eventInstanceType == domainEvent.runtimeType && registrations[j].eventInstanceType == domainEvent.runtimeType
      ensures r.Success? ==>
        exists i :: 0 <= i < |registrations| && registrations[i].eventInstanceType == domainEvent.runtimeType &&
          r.value == registrations[i].eventType
    {
      Find(registrations, ByType(domainEvent.runtimeType))
    }
  }

  /**
   * Round trip: once (name, type, topic) is registered and no other
   * registration uses that name or that type, the type name looked up for an
   * event of that type leads to the registered topic.
   */
  lemma RegisteredRoundTrip(registry: DomainEventRegistry, before: seq<DomainEventRegistration>,
                            eventTypeName: string, eventInstanceType: ClrType, topicName: string)
    requires registry.registrations == before + [DomainEventRegistration(eventTypeName, eventInstanceType, topicName)]
    requires forall i :: 0 <= i < |before| ==> before[i].eventType != eventTypeName && before[i].eventInstanceType != eventInstanceType
    ensures registry.IsRegistered(eventInstanceType)
    ensures registry.GetTypeNameFor(DomainEvent(eventInstanceType)) == Success(eventTypeName)
    ensures registry.GetTopicFor(registry.GetTypeNameFor(DomainEvent(eventInstanceType)).value) == Success(topicName)
  {
    var regs := registry.registrations;
    var last := |regs| - 1;
    assert regs[last].eventInstanceType == eventInstanceType && regs[last].eventType == eventTypeName;
    assert forall i :: 0 <= i < last ==> regs[i] == before[i];
  }

  /** A second registration under an already registered name makes every lookup of that name fail. */
  lemma DuplicateNameIsAmbiguous(registry: DomainEventRegistry, i: nat, j: nat)
    requires i < j < |registry.registrations|
    requires registry.registrations[i].eventType == registry.registrations[j].eventType
    ensures registry.GetTopicFor(registry.registrations[i].eventType) == Failure(MoreThanOneMatch)
  {
  }

  /** A second registration of an already registered type makes every type-name lookup for it fail. */
  lemma DuplicateTypeIsAmbiguous(registry: DomainEventRegistry, i: nat, j: nat)
    requires i < j < |registry.registrations|
    requires registry.registrations[i].eventInstanceType == registry.registrations[j].eventInstanceType
    ensures registry.GetTypeNameFor(DomainEvent(registry.registrations[i].eventInstanceType)) == Failure(MoreThanOneMatch)
  {
  }

  const CapabilityCreatedType := OtherType("DFDS.CapabilityService.WebApi.Domain.Events.CapabilityCreated")

  /** The registry the capability service builds at start-up: one registration of CapabilityCreated. */
  method ConfigureDomainEvents() returns (registry: DomainEventRegistry)
    ensures fresh(registry)
    ensures registry.registrations == [DomainEventRegistration("capabilitycreated", CapabilityCreatedType, "build.capabilities")]
    ensures registry.GetTopicFor("capabilitycreated") == Success("build.capabilities")
    ensures registry.GetTypeNameFor(DomainEvent(CapabilityCreatedType)) == Success("capabilitycreated")
  {
    registry := new DomainEventRegistry();
    var _ := registry.Register("capabilitycreated", CapabilityCreatedType, "build.capabilities");
    RegisteredRoundTrip(registry, [], "capabilitycreated", CapabilityCreatedType, "build.capabilities");
  }
}
