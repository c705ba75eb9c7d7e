/**
 * SettingsProvider: fills the writable properties of a settings object from
 * configuration strings. Each property's value is looked up under the key of
 * every naming convention in turn, converted to the property's type and
 * stored; whatever goes wrong is collected as a conversion issue, and the
 * issues are reported together at the end.
 */
module SettingsProviders {
  import opened Wrappers
  import opened Text
  import opened Configurations
  import opened Clr
  import opened Converters
  import opened Properties
  import opened ConventionBuilder
  import opened NamingConventions
  import opened Issues
  import opened IssueReporting

  /** NamingConvention.Default, the convention every provider tries last. */
  const DefaultConvention := NamingConvention(DeclaringTypeAndName, ".")

  /** The key of convention `i` holds a non-empty value, and the keys of the conventions before it do not. */
  predicate FirstNonEmptyAt(conventions: seq<NamingConvention>, configuration: Configuration, p: Property, i: int)
  {
    && 0 <= i < |conventions|
    && !IsNullOrEmpty(Lookup(configuration, conventions[i].GetKey(p)))
    && forall j :: 0 <= j < i ==> IsNullOrEmpty(Lookup(configuration, conventions[j].GetKey(p)))
  }

  /**
   * GetSettingStringValue: the configuration value under the first
   * convention's key that holds a non-empty value, or null when none does.
   */
  function GetSettingStringValue(conventions: seq<NamingConvention>, configuration: Configuration, p: Property): (r: Option<string>)
    ensures r.None? <==> forall i :: 0 <= i < |conventions| ==> IsNullOrEmpty(Lookup(configuration, conventions[i].GetKey(p)))
    ensures r.Some? ==> !IsNullOrEmpty(r)
    ensures r.Some? ==> exists i :: FirstNonEmptyAt(conventions, configuration, p, i) && Lookup(configuration, conventions[i].GetKey(p)) == r
  {
    if |conventions| == 0 then None
    else
      var value := Lookup(configuration, conventions[0].GetKey(p));
      if !IsNullOrEmpty(value) then value
      else
        var rest := GetSettingStringValue(conventions[1..], configuration, p);
        assert forall i :: 1 <= i < |conventions| ==> conventions[i] == conventions[1..][i - 1];
        if rest.Some? then
          var k :| FirstNonEmptyAt(conventions[1..], configuration, p, k) && Lookup(configuration, conventions[1..][k].GetKey(p)) == rest;
          assert FirstNonEmptyAt(conventions, configuration, p, k + 1);
          rest
        else
          rest
  }

  /** GetAttemptedKeys: the key of every convention, in convention order. */
  function GetAttemptedKeys(conventions: seq<NamingConvention>, p: Property): (r: seq<string>)
    ensures |r| == |conventions|
    ensures forall i :: 0 <= i < |conventions| ==> r[i] == conventions[i].GetKey(p)
  {
    seq(|conventions|, i requires 0 <= i < |conventions| => conventions[i].GetKey(p))
  }

  /** A convention put in front wins whenever its key holds a value, and is skipped otherwise. */
  lemma FirstConventionWins(c: NamingConvention, conventions: seq<NamingConvention>, configuration: Configuration, p: Property)
    ensures !IsNullOrEmpty(Lookup(configuration, c.GetKey(p))) ==>
      GetSettingStringValue([c] + conventions, configuration, p) == Lookup(configuration, c.GetKey(p))
    ensures IsNullOrEmpty(Lookup(configuration, c.GetKey(p))) ==>
      GetSettingStringValue([c] + conventions, configuration, p) == GetSettingStringValue(conventions, configuration, p)
  {
    assert ([c] + conventions)[1..] == conventions;
  }

  /** With the default convention last, a property whose other keys are all empty gets the value under "{DeclaringTypeName}.{Name}". */
  lemma FallsBackToDefault(conventions: seq<NamingConvention>, configuration: Configuration, p: Property)
    requires forall i :: 0 <= i < |conventions| ==> IsNullOrEmpty(Lookup(configuration, conventions[i].GetKey(p)))
    ensures var key := OrEmpty(p.declaringTypeName) + "." + OrEmpty(p.name);
      GetSettingStringValue(conventions + [DefaultConvention], configuration, p) ==
      if IsNullOrEmpty(Lookup(configuration, key)) then None else Lookup(configuration, key)
  {
    var all := conventions + [DefaultConvention];
    assert forall i :: 0 <= i < |conventions| ==> all[i] == conventions[i];
    assert all[|conventions|] == DefaultConvention;
  }

  /** What Populate does with one writable property. */
  datatype Outcome =
    | Skipped
    | Reported(issue: ConversionIssue)
    | Assigned(value: Value)

  /** What a provider reads while populating: the configuration, the converter list and the naming conventions. */
  datatype Sources = Sources(configuration: Configuration, converters: seq<Converter>, conventions: seq<NamingConvention>)

  /** The issue every outcome of a property starts from: the settings object, the property, the value found and the keys tried. */
  function BaseIssue(settings: SettingsObject, src: Sources, p: Property): ConversionIssue
  {
    var stringValue := GetSettingStringValue(src.conventions, src.configuration, p);
    WithKeys(WithValue(WithProperty(For(Some(settings)).value, Some(p)), stringValue), Some(GetAttemptedKeys(src.conventions, p)))
  }

  /**
   * The body of Populate's loop for one property: a missing value is an
   * issue unless the property is optional; a type without a converter is an
   * issue; a conversion that fails, or a value the property setter refuses,
   * is an issue carrying the exception; any other value is stored.
   */
  function Process(settings: SettingsObject, src: Sources, info: PropertyInfo): (r: Outcome)
    ensures var p := Create(info);
      var stringValue := GetSettingStringValue(src.conventions, src.configuration, p);
      && (r.Reported? ==>
            && r.issue.settings == settings && r.issue.property == Some(p)
            && r.issue.value == stringValue
            && r.issue.keys == GetAttemptedKeys(src.conventions, p))
      && (IsNullOrEmpty(stringValue) ==>
            if info.hasOptionalSetting then r == Skipped
            else r.Reported? && r.issue.message == Some("Required value missing") && r.issue.exception == None)
      && (!IsNullOrEmpty(stringValue) && !HasConverter(src.converters, info.propertyType) ==>
            r.Reported? && r.issue.message == Some("Unable to parse type " + FullName(info.propertyType)) &&
            r.issue.exception == None)
      && (!IsNullOrEmpty(stringValue) && HasConverter(src.converters, info.propertyType) ==>
            match Convert(src.converters, info.propertyType, stringValue)
            case Success(v) =>
              if Accepts(info.propertyType, v) then
                r == Assigned(v)
              else
                && r.Reported?
                && r.issue.exception == Some(SetValueError(info.propertyType, v))
                && r.issue.message == Some("Failed to convert")
            case Failure(e) => r.Reported? && r.issue.exception == Some(e) && r.issue.message == Some("Failed to convert"))
  {
    var p := Create(info);
    var stringValue := GetSettingStringValue(src.conventions, src.configuration, p);
    var issue := BaseIssue(settings, src, p);
    if IsNullOrEmpty(stringValue) then
      if !p.isOptional then Reported(WithMessage(issue, Some("Required value missing"))) else Skipped
    else if !HasConverter(src.converters, info.propertyType) then
      Reported(WithMessage(issue, Some("Unable to parse type " + FullName(info.propertyType))))
    else
      match Convert(src.converters, info.propertyType, stringValue)
      case Success(v) =>
        if Accepts(info.propertyType, v) then Assigned(v)
        else Reported(WithMessage(WithException(issue, Some(SetValueError(info.propertyType, v))), Some("Failed to convert")))
      case Failure(e) => Reported(WithMessage(WithException(issue, Some(e)), Some("Failed to convert")))
  }

  /**
   * A collection property that is not one of the interfaces an array
   * implements (a List<T> or HashSet<T>, say) never receives a value: the
   * array family builds a T[], the setter refuses it, and the property is
   * reported as "Failed to convert" whether or not its elements convert.
   */
  lemma CollectionPropertyIsReported(settings: SettingsObject, src: Sources, info: PropertyInfo, descriptors: TypeDescriptors)
    requires src.converters == Builtins(descriptors)
    requires info.propertyType.EnumerableType? && info.propertyType.definition !in ArrayInterfaces
    requires HasConverter(src.converters, info.propertyType.argument)
    requires var stringValue := GetSettingStringValue(src.conventions, src.configuration, Create(info));
      stringValue.Some? && stringValue.value != NullString
    ensures var r := Process(settings, src, info);
      r.Reported? && r.issue.message == Some("Failed to convert")
  {
    var t := info.propertyType;
    var stringValue := GetSettingStringValue(src.conventions, src.configuration, Create(info));
    ArrayFamilyPicked(descriptors, t, stringValue);
    ConvertArraySpecial(src.converters, t.argument, stringValue);
    if !EqualsIgnoreCase(stringValue.value, EmptyString) {
      ConvertArrayPieces(src.converters, t.argument, stringValue.value);
    }
    match Convert(src.converters, t, stringValue)
    case Success(v) =>
      ArrayIntoEnumerable(t.definition, t.argument, v.items);
    case Failure(_) =>
  }

  /** The outcome of every writable property, in property order. */
  function Outcomes(settings: SettingsObject, src: Sources, infos: seq<PropertyInfo>): (r: seq<Outcome>)
    ensures |r| == |infos|
    ensures forall i :: 0 <= i < |infos| ==> r[i] == Process(settings, src, infos[i])
  {
    seq(|infos|, i requires 0 <= i < |infos| => Process(settings, src, infos[i]))
  }

  /** The issues among the outcomes, in order. */
  function IssuesOf(outcomes: seq<Outcome>): (r: seq<ConversionIssue>)
    ensures |r| <= |outcomes|
  {
    if |outcomes| == 0 then []
    else
      var rest := IssuesOf(outcomes[..|outcomes| - 1]);
      match outcomes[|outcomes| - 1]
      case Reported(issue) => rest + [issue]
      case _ => rest
  }

  /** The property values after the outcomes' values are stored, one property after the other. */
  function Assign(values: map<string, Value>, infos: seq<PropertyInfo>, outcomes: seq<Outcome>): map<string, Value>
    requires |infos| == |outcomes|
  {
    if |infos| == 0 then values
    else
      var n := |infos| - 1;
      var before := Assign(values, infos[..n], outcomes[..n]);
      match outcomes[n]
      case Assigned(v) => before[infos[n].name := v]
      case _ => before
  }

  lemma IssuesOfSnoc(outcomes: seq<Outcome>, i: nat)
    requires i < |outcomes|
    ensures IssuesOf(outcomes[..i + 1]) ==
      IssuesOf(outcomes[..i]) + (match outcomes[i] case Reported(issue) => [issue] case _ => [])
  {
    assert outcomes[..i + 1][..i] == outcomes[..i];
  }

  lemma AssignSnoc(values: map<string, Value>, infos: seq<PropertyInfo>, outcomes: seq<Outcome>, i: nat)
    requires |infos| == |outcomes| && i < |infos|
    ensures Assign(values, infos[..i + 1], outcomes[..i + 1]) ==
      match outcomes[i]
      case Assigned(v) => Assign(values, infos[..i], outcomes[..i])[infos[i].name := v]
      case _ => Assign(values, infos[..i], outcomes[..i])
  {
    assert infos[..i + 1][..i] == infos[..i];
    assert outcomes[..i + 1][..i] == outcomes[..i];
  }

  /** Every issue comes from one property's outcome, and every property's issue is reported: no property is skipped after a failure. */
  lemma {:induction false} IssuesOfOutcomes(outcomes: seq<Outcome>)
    ensures forall i :: 0 <= i < |outcomes| && outcomes[i].Reported? ==> outcomes[i].issue in IssuesOf(outcomes)
    ensures forall x :: x in IssuesOf(outcomes) ==> Reported(x) in outcomes
  {
    if |outcomes| > 0 {
      var n := |outcomes| - 1;
      var pre := outcomes[..n];
      IssuesOfOutcomes(pre);
      assert forall i :: 0 <= i < n ==> outcomes[i] == pre[i];
      assert forall o :: o in pre ==> o in outcomes;
    }
  }

  /** A property without a stored value — issue, skip, or no such property — keeps the value it had. */
  lemma {:induction false} AssignLeavesOthers(values: map<string, Value>, infos: seq<PropertyInfo>, outcomes: seq<Outcome>, name: string)
    requires |infos| == |outcomes|
    requires forall i :: 0 <= i < |infos| && infos[i].name == name ==> !outcomes[i].Assigned?
    ensures name in Assign(values, infos, outcomes) <==> name in values
    ensures name in values ==> Assign(values, infos, outcomes)[name] == values[name]
  {
    if |infos| > 0 {
      var n := |infos| - 1;
      AssignLeavesOthers(values, infos[..n], outcomes[..n], name);
    }
  }

  /** A property whose value was converted holds that value afterwards (writable property names are distinct). */
  lemma {:induction false} AssignStores(values: map<string, Value>, infos: seq<PropertyInfo>, outcomes: seq<Outcome>, i: nat)
    requires |infos| == |outcomes| && i < |infos| && outcomes[i].Assigned?
    requires forall j :: 0 <= j < |infos| && j != i ==> infos[j].name != infos[i].name
    ensures infos[i].name in Assign(values, infos, outcomes)
    ensures Assign(values, infos, outcomes)[infos[i].name] == outcomes[i].value
  {
    var n := |infos| - 1;
    if i < n {
      AssignStores(values, infos[..n], outcomes[..n], i);
    } else {
      var name := infos[i].name;
      var before := Assign(values, infos[..n], outcomes[..n]);
      assert Assign(values, infos, outcomes) == before[name := outcomes[i].value];
    }
  }

  /** The options a provider is built from; the user's conventions go in front of NamingConvention.Default. */
  class SettingsProviderOptions {
    var namingConventions: seq<NamingConvention>
    const objectConverter: ObjectConverter
    var issueReporter: ConversionIssueReporter

    constructor(descriptors: TypeDescriptors)
      ensures namingConventions == [DefaultConvention]
      ensures fresh(objectConverter) && objectConverter.converters == Builtins(descriptors)
      ensures fresh(issueReporter) && issueReporter.issues == []
    {
      var defaultConvention := Default();
      namingConventions := [defaultConvention];
      objectConverter := new ObjectConverter(descriptors);
      issueReporter := new ConversionIssueReporter();
    }

    /** The default convention is always the last one tried. */
    ghost predicate DefaultIsLast()
      reads this
    {
      |namingConventions| > 0 && namingConventions[|namingConventions| - 1] == DefaultConvention
    }

    /** WithConvention(NamingConvention): the convention goes in front of the earlier ones. */
    method WithConvention(convention: NamingConvention)
      modifies this
      ensures namingConventions == [convention] + old(namingConventions)
      ensures old(DefaultIsLast()) ==> DefaultIsLast()
      ensures issueReporter == old(issueReporter)
    {
      namingConventions := [convention] + namingConventions;
    }

    /** WithConvention(Action<INamingConventionBuilder>): the steps run on a fresh builder, and its result goes in front. */
    method WithConventionSteps(steps: seq<BuilderStep>)
      modifies this
      ensures var built := Steps(steps, ".", DeclaringTypeAndName);
        namingConventions == [NamingConvention(built.1, built.0)] + old(namingConventions)
      ensures old(DefaultIsLast()) ==> DefaultIsLast()
      ensures issueReporter == old(issueReporter)
    {
      var builder := new NamingConventionBuilder();
      builder.Apply(steps);
      var convention := builder.Build();
      WithConvention(convention);
    }

    /** RegisterConverter: the converter goes in front of the object converter's list. */
    method RegisterConverter(converter: Converter)
      modifies objectConverter
      ensures objectConverter.converters == [converter] + old(objectConverter.converters)
    {
      objectConverter.RegisterConverter(converter);
    }

    /** WithIssueReporter: replaces the reporter; a null reporter is an ArgumentNullException and changes nothing. */
    method WithIssueReporter(reporter: ConversionIssueReporter?) returns (thrown: Option<Exception>)
      modifies this
      ensures reporter == null ==> thrown == Some(ArgumentNull("conversionIssueReporter")) && issueReporter == old(issueReporter)
      ensures reporter != null ==> thrown == None && issueReporter == reporter
      ensures namingConventions == old(namingConventions)
    {
      if reporter == null {
        return Some(ArgumentNull("conversionIssueReporter"));
      }
      issueReporter := reporter;
      thrown := None;
    }
  }

  class SettingsProvider {
    const configuration: Configuration
    const objectConverter: ObjectConverter
    const issueReporter: ConversionIssueReporter
    const namingConventions: seq<NamingConvention>

    constructor(configuration: Configuration, objectConverter: ObjectConverter, issueReporter: ConversionIssueReporter,
                namingConventions: seq<NamingConvention>)
      ensures this.configuration == configuration && this.objectConverter == objectConverter
      ensures this.issueReporter == issueReporter && this.namingConventions == namingConventions
    {
      this.configuration := configuration;
      this.objectConverter := objectConverter;
      this.issueReporter := issueReporter;
      this.namingConventions := namingConventions;
    }

    function CurrentSources(): Sources
      reads objectConverter
    {
      Sources(configuration, objectConverter.converters, namingConventions)
    }

    /**
     * One pass of Populate's loop: the property's value is looked up under
     * each convention and converted; a converted value is stored, an issue is
     * added to the reporter, and nothing else changes.
     */
    method PopulateProperty(settings: SettingsObject, info: PropertyInfo, ghost src: Sources)
      requires src == CurrentSources()
      modifies settings, issueReporter
      ensures var outcome := Process(settings, src, info);
        settings.values == (if outcome.Assigned? then old(settings.values)[info.name := outcome.value] else old(settings.values))
      ensures var outcome := Process(settings, src, info);
        issueReporter.issues == old(issueReporter.issues) + (if outcome.Reported? then [outcome.issue] else [])
    {
      ghost var outcome := Process(settings, src, info);
      var property := Create(info);
      var stringValue := GetSettingStringValue(namingConventions, configuration, property);
      var conversionIssue := WithKeys(WithValue(WithProperty(For(Some(settings)).value, Some(property)), stringValue),
                                      Some(GetAttemptedKeys(namingConventions, property)));
      assert conversionIssue == BaseIssue(settings, src, property);
      if IsNullOrEmpty(stringValue) {
        if !property.isOptional {
          var issue := WithMessage(conversionIssue, Some("Required value missing"));
          assert outcome == Reported(issue);
          issueReporter.AddIssue(issue);
        }
        return;
      }
      ConvertProperty(settings, info, property, stringValue, conversionIssue, src);
    }

    /** The rest of the loop body, once a non-empty value was found: find a converter, convert, store or report. */
    method ConvertProperty(settings: SettingsObject, info: PropertyInfo, property: Property, stringValue: Option<string>,
                           conversionIssue: ConversionIssue, ghost src: Sources)
      requires src == CurrentSources() && property == Create(info)
      requires stringValue == GetSettingStringValue(src.conventions, src.configuration, property) && !IsNullOrEmpty(stringValue)
      requires conversionIssue == BaseIssue(settings, src, property)
      modifies settings, issueReporter
      ensures var outcome := Process(settings, src, info);
        settings.values == (if outcome.Assigned? then old(settings.values)[info.name := outcome.value] else old(settings.values))
      ensures var outcome := Process(settings, src, info);
        issueReporter.issues == old(issueReporter.issues) + (if outcome.Reported? then [outcome.issue] else [])
    {
      ghost var outcome := Process(settings, src, info);
      var t := info.propertyType;
      if !objectConverter.HasTypeConverter(t) {
        var issue := WithMessage(conversionIssue, Some("Unable to parse type " + FullName(t)));
        assert outcome == Reported(issue);
        issueReporter.AddIssue(issue);
        return;
      }
      var value := objectConverter.FromString(stringValue, t);
      match value
      case Success(v) =>
        var thrown := SetValue(property, settings, v);
        if thrown.Some? {
          var issue := WithMessage(WithException(conversionIssue, thrown), Some("Failed to convert"));
          assert outcome == Reported(issue);
          issueReporter.AddIssue(issue);
        } else {
          assert outcome == Assigned(v);
        }
      case Failure(e) =>
        var issue := WithMessage(WithException(conversionIssue, Some(e)), Some("Failed to convert"));
        assert outcome == Reported(issue);
        issueReporter.AddIssue(issue);
    }

    /**
     * Populate: a null settings object is an ArgumentNullException. Otherwise
     * every writable property is processed in order; converted values are
     * stored and issues added to the reporter; then the reporter reports
     * once, and either throws or the same settings object is returned.
     */
    method Populate(settings: SettingsObject?) returns (r: Result<SettingsObject, Exception>)
      modifies settings, issueReporter
      ensures settings == null ==> r == Failure(ArgumentNull("settings")) && issueReporter.issues == old(issueReporter.issues)
      ensures settings != null ==>
        var outcomes := Outcomes(settings, CurrentSources(), settings.writableProperties);
        && settings.values == Assign(old(settings.values), settings.writableProperties, outcomes)
        && issueReporter.issues == old(issueReporter.issues) + IssuesOf(outcomes)
      ensures settings != null ==>
        r == if issueReporter.issues == [] then Success(settings) else Failure(InvalidOperation(Report(issueReporter.issues)))
    {
      if settings == null {
        return Failure(ArgumentNull("settings"));
      }
      var properties := settings.writableProperties;
      ghost var src := CurrentSources();
      ghost var outcomes := Outcomes(settings, src, properties);
      for i := 0 to |properties|
        invariant settings.values == Assign(old(settings.values), properties[..i], outcomes[..i])
        invariant issueReporter.issues == old(issueReporter.issues) + IssuesOf(outcomes[..i])
      {
        ghost var issuesBefore := issueReporter.issues;
        PopulateProperty(settings, properties[i], src);
        IssuesOfSnoc(outcomes, i);
        AssignSnoc(old(settings.values), properties, outcomes, i);
        if outcomes[i].Reported? {
          AppendAssociates(old(issueReporter.issues), IssuesOf(outcomes[..i]), [outcomes[i].issue]);
        }
      }
      assert properties[..|properties|] == properties;
      assert outcomes[..|properties|] == outcomes;
      var thrown := issueReporter.ReportIssues();
      r := if thrown.None? then Success(settings) else Failure(thrown.value);
    }
  }

  /** CreateSettingsProvider(configuration): the default options. */
  method CreateSettingsProvider(configuration: Option<Configuration>, descriptors: TypeDescriptors)
    returns (r: Result<SettingsProvider, Exception>)
    ensures configuration.None? ==> r == Failure(ArgumentNull("configuration"))
    ensures configuration.Some? ==> r.Success? && fresh(r.value) && fresh(r.value.objectConverter) && fresh(r.value.issueReporter)
    ensures configuration.Some? ==> r.value.configuration == configuration.value && r.value.namingConventions == [DefaultConvention]
    ensures configuration.Some? ==> r.value.objectConverter.converters == Builtins(descriptors) && r.value.issueReporter.issues == []
  {
    if configuration.None? {
      return Failure(ArgumentNull("configuration"));
    }
    var options := new SettingsProviderOptions(descriptors);
    var provider := new SettingsProvider(configuration.value, options.objectConverter, options.issueReporter, options.namingConventions);
    r := Success(provider);
  }

  /**
   * CreateSettingsProvider(configuration, applicationPrefix): a null or empty
   * prefix is an ArgumentException; otherwise the environment convention for
   * the prefix is tried before the default one.
   */
  method CreateEnvironmentSettingsProvider(configuration: Option<Configuration>, applicationPrefix: Option<string>, descriptors: TypeDescriptors)
    returns (r: Result<SettingsProvider, Exception>)
    ensures configuration.None? ==> r == Failure(ArgumentNull("configuration"))
    ensures configuration.Some? && IsNullOrEmpty(applicationPrefix) ==>
      r == Failure(Exception(ArgumentExceptionType, "Value cannot be null or empty."))
    ensures configuration.Some? && !IsNullOrEmpty(applicationPrefix) ==>
      && r.Success? && fresh(r.value) && fresh(r.value.objectConverter) && fresh(r.value.issueReporter)
      && r.value.configuration == configuration.value
      && |r.value.namingConventions| == 2 && r.value.namingConventions[1] == DefaultConvention
      && (forall p :: r.value.namingConventions[0].GetKey(p) == EnvironmentKey(applicationPrefix.value, OrEmpty(p.name)))
      && r.value.objectConverter.converters == Builtins(descriptors) && r.value.issueReporter.issues == []
  {
    if configuration.None? {
      return Failure(ArgumentNull("configuration"));
    }
    if IsNullOrEmpty(applicationPrefix) {
      return Failure(Exception(ArgumentExceptionType, "Value cannot be null or empty."));
    }
    var options := new SettingsProviderOptions(descriptors);
    var environment := DefaultEnvironment(applicationPrefix);
    options.WithConvention(environment);
    var provider := new SettingsProvider(configuration.value, options.objectConverter, options.issueReporter, options.namingConventions);
    r := Success(provider);
  }
}
