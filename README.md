# Capability service: event registry, Kafka settings and the Settings library

This project is a Dafny model of two parts of the capability service. It proves properties of that model.

**Messaging set-up of the web API.**
- `DomainEventRegistry` is an append-only table of registrations, each holding an event type name, an event instance type and a topic.
- Lookups by name and by type work like LINQ's `SingleOrDefault`:
  - no match throws a `MessagingException`;
  - two matches throw `InvalidOperationException`.
- `KafkaPublisherFactory.KafkaConfiguration` reads eight dotted Kafka client keys. Each is read from the environment under `CAPABILITY_SERVICE_KAFKA_` followed by the key, upper-cased, with '.' turned into '_'.
  - Blank values are dropped.
  - `request.timeout.ms = 3000` is always added at the end.

**The Settings library.** It fills the writable properties of a settings object from configuration strings.
- A `NamingConvention` maps a property to a configuration key. Conventions are built with `NamingConventionBuilder`, or are one of the ready-made `Default` ("{DeclaringType}.{Name}") and `DefaultEnvironment(prefix)` conventions.
- `SettingsProvider.Populate` tries the conventions in order and takes the first non-empty value.
- `ObjectConverter` converts that value. It tries these converter families in order:
  - registered converters;
  - string;
  - array and enumerable;
  - nullable;
  - type descriptor.
- The value is stored into the property.
- A missing required value, a type without a converter, or a failed conversion becomes a `ConversionIssue`.
- `ConversionIssueReporter` collects the issues. At the end it throws one `InvalidOperationException` whose message is the rendered report.
- The reporter never clears its list. Issues stay with it across `Populate` calls, and the model keeps that behaviour.

**How the model is built.**
- Each core source file is one module.
- The support modules are:
  - `Wrappers`: `Option` and `Result`;
  - `Text`: ASCII upper-casing, `Split`/`Join`, decimal rendering;
  - `Configurations`: the `IConfiguration` indexer, whose keys compare ignoring case;
  - `Clr`: runtime types and exceptions.
- Classes whose fields change are Dafny classes with `modifies` clauses: `DomainEventRegistry`, `NamingConventionBuilder`, `ObjectConverter`, `ConversionIssueReporter`, `SettingsProviderOptions`, `SettingsProvider` and the populated settings object.
- Everything else is functions over datatypes.
- A C# `null` is `None`, and a thrown exception is a `Failure` (or an `Option<Exception>` for a method that would otherwise return nothing).
- `Populate` is a loop. It is proved against the functions `Process`, `Outcomes`, `Assign` and `IssuesOf`, which describe one property's outcome and the effect of all of them.

**Where the documentation and the code disagree.** The doc comment of `DefaultEnvironment` promises the key "{prefix}_{PROPERTY_NAME}". The code runs word separation and upper-casing over the prefix as well (src/Settings/NamingConvention.cs:19-26). The model follows the code. `EnvironmentKeyStartsWithPrefix` proves the documented shape for prefixes without a lower-to-upper boundary.

## Model

| member | source | states |
|---|---|---|
| EventRegistry.DomainEventRegistry.Register | src/CapabilityService.WebApi/Infrastructure/Messaging/DomainEventRegistry.cs:14-24 | appends exactly the new registration to the table and returns the registry itself |
| EventRegistry.DomainEventRegistry.IsRegistered | src/CapabilityService.WebApi/Infrastructure/Messaging/DomainEventRegistry.cs:26-29 | true exactly when some registration has the given instance type |
| EventRegistry.Any | src/CapabilityService.WebApi/Infrastructure/Messaging/DomainEventRegistry.cs:28 | true exactly when some registration satisfies the query |
| EventRegistry.SingleOrDefault | src/CapabilityService.WebApi/Infrastructure/Messaging/DomainEventRegistry.cs:33 | no match exactly when no registration satisfies the query; several matches exactly when two distinct registrations do; a single match is a registration of the table that satisfies it |
| EventRegistry.Find | src/CapabilityService.WebApi/Infrastructure/Messaging/DomainEventRegistry.cs:31-53 | a MessagingException exactly when nothing matches; the ambiguity exception exactly when two registrations match; a success is the wanted field of a matching registration |
| EventRegistry.DomainEventRegistry.GetTopicFor | src/CapabilityService.WebApi/Infrastructure/Messaging/DomainEventRegistry.cs:31-41 | MessagingException with the "topic name" message exactly when no registration has that name; ambiguity exactly when two share it; otherwise the topic of the registration with that name |
| EventRegistry.DomainEventRegistry.GetTypeNameFor | src/CapabilityService.WebApi/Infrastructure/Messaging/DomainEventRegistry.cs:43-53 | MessagingException with the "event type name" message exactly when no registration has the event's runtime type; ambiguity exactly when two share it; otherwise the name of the registration with that type |
| EventRegistry.RegisteredRoundTrip | src/CapabilityService.WebApi/Infrastructure/Messaging/DomainEventRegistry.cs:14-53 | after registering a name and type used by no earlier registration, the type is registered, its name is the registered name, and that name's topic is the registered topic |
| EventRegistry.DuplicateNameIsAmbiguous | src/CapabilityService.WebApi/Infrastructure/Messaging/DomainEventRegistry.cs:33 | two registrations under one name make the topic lookup of that name fail as ambiguous |
| EventRegistry.DuplicateTypeIsAmbiguous | src/CapabilityService.WebApi/Infrastructure/Messaging/DomainEventRegistry.cs:45 | two registrations of one type make the name lookup of that type fail as ambiguous |
| EventRegistry.LookupErrorsDiffer | src/CapabilityService.WebApi/Infrastructure/Messaging/DomainEventRegistry.cs:35-38 | the missing-registration exception and the ambiguity exception have different types |
| EventRegistry.ConfigureDomainEvents | src/CapabilityService.WebApi/Startup.cs:117-126 | the service's registry holds the single capabilitycreated registration, whose topic and type name lookups succeed |
| KafkaConfiguration.KeyShape | src/CapabilityService.WebApi/Infrastructure/Messaging/KafkaPublisherFactory.cs:33-41 | an environment key is the prefix followed by the client key, character by character, with '.' as '_' and letters upper-cased |
| KafkaConfiguration.GetConfiguration | src/CapabilityService.WebApi/Infrastructure/Messaging/KafkaPublisherFactory.cs:43-53 | nothing exactly when the environment value is null or white space; otherwise the client key paired with that value |
| KafkaConfiguration.Present | src/CapabilityService.WebApi/Infrastructure/Messaging/KafkaPublisherFactory.cs:69-73 | the pairs keep the order of the keys, each one is what its key gives, and every key that gives a pair is listed |
| KafkaConfiguration.PresentValues | src/CapabilityService.WebApi/Infrastructure/Messaging/KafkaPublisherFactory.cs:69-73 | every listed value is the non-blank environment value of its key, and every non-blank value of a key is listed |
| KafkaConfiguration.PresentKeys | src/CapabilityService.WebApi/Infrastructure/Messaging/KafkaPublisherFactory.cs:69-75 | for distinct keys other than the timeout, the listed pairs plus the timeout have distinct keys |
| KafkaConfiguration.ConfigurationKeysAreDistinct | src/CapabilityService.WebApi/Infrastructure/Messaging/KafkaPublisherFactory.cs:57-75 | the eight client keys are distinct and none is the timeout key |
| KafkaConfiguration.Settings | src/CapabilityService.WebApi/Infrastructure/Messaging/KafkaPublisherFactory.cs:69-77 | at most one pair per key plus one, and the last pair is always request.timeout.ms = 3000 |
| KafkaConfiguration.SettingsValues | src/CapabilityService.WebApi/Infrastructure/Messaging/KafkaPublisherFactory.cs:69-77 | before the timeout, exactly the keys with a non-blank environment value appear, each with that value |
| KafkaConfiguration.SettingsKeys | src/CapabilityService.WebApi/Infrastructure/Messaging/KafkaPublisherFactory.cs:69-77 | the keys before the timeout are a subsequence of the keys looked up, and no key appears twice |
| KafkaConfiguration.AsEnumerable | src/CapabilityService.WebApi/Infrastructure/Messaging/KafkaPublisherFactory.cs:55-78 | between one and nine pairs, the last being the fixed request timeout |
| KafkaConfiguration.AsEnumerableContents | src/CapabilityService.WebApi/Infrastructure/Messaging/KafkaPublisherFactory.cs:55-78 | the producer configuration lists, in list order and each once, exactly the client keys whose environment value is not blank, with those values, and then the timeout |
| Configurations.LookupWith | src/Settings.Tests/TestBuilders/ConfigurationBuilder.cs:10-20 | after storing a value under a key, a lookup of any key equal to it ignoring case gives that value, and any other lookup is unchanged |
| Configurations.LookupIgnoresCase | src/Settings/SettingsProvider.cs:204 | two keys that differ only in case read the same value |
| Configurations.MixedCaseKey | src/Settings.Tests/TestBuilders/ConfigurationBuilder.cs:10-20 | a value stored under "testsettings.mybool" is found under "TestSettings.MyBool" |
| Clr.ExceptionToStringParts | src/Settings/ConversionIssueReporter.cs:66 | an exception renders as its full type name, followed by ": " and the message exactly when the message is not empty |
| Text.Split | src/Settings/ObjectConverter.cs:158 | one piece more than there are separators, and no piece holds the separator |
| Text.JoinSplit | src/Settings/ObjectConverter.cs:158 | joining the pieces of a split with the separator gives back the original string |
| Text.SplitJoin | src/Settings/ConversionIssueReporter.cs:28-39 | splitting a join of separator-free pieces gives back the pieces |
| Text.ToUpperAppend | src/CapabilityService.WebApi/Infrastructure/Messaging/KafkaPublisherFactory.cs:41 | upper-casing a concatenation is concatenating the upper-cased parts |
| Text.ToUpperHasNoLowerCase | src/Settings/NamingConventionBuilder.cs:46-49 | an upper-cased string holds no lower-case ASCII letter |
| Text.ParseNatToString | src/Settings/ConversionIssueReporter.cs:44 | the decimal rendering of a number reads back as that number |
| Converters.FirstMatch | src/Settings/ObjectConverter.cs:44 | the index found is the first converter from the start position that matches; nothing exactly when none matches |
| Converters.FindConverter | src/Settings/ObjectConverter.cs:42-51 | the first matching converter of the list, and nothing exactly when the type has no converter |
| Converters.Convert | src/Settings/ObjectConverter.cs:37-51 | a type without a converter fails with the "Unable to find a converter implementation" InvalidOperationException |
| Converters.ConvertElement | src/Settings/ObjectConverter.cs:163-164 | one element is the element converter's value when the element type can hold it; a converter failure is passed on, and a value the element type refuses is Array.SetValue's InvalidCastException |
| Converters.ElementFits | src/Settings/ObjectConverter.cs:163-164 | an element succeeds exactly when its piece converts to a value that fits, and fails with the converter's error or else the InvalidCastException |
| Converters.ConvertPieces | src/Settings/ObjectConverter.cs:158-166 | succeeds exactly when every element succeeds, with one element per piece in order; a failure is that of the first element that fails |
| Converters.FillArray | src/Settings/ObjectConverter.cs:158-167 | the loop filling the array, which stops at the first throwing converter or refused store, gives what ConvertPieces specifies |
| Converters.BuiltinsHaveConverter | src/Settings/ObjectConverter.cs:19-30 | the built-in list converts a type exactly when it is string, an array or enumerable or nullable of a convertible type, or accepted by the type descriptor |
| Converters.StringFamily | src/Settings/ObjectConverter.cs:55-79 | "EMPTY" gives the empty string, "NULL" and null give null, any other string is returned unchanged |
| Converters.NullableFamily | src/Settings/ObjectConverter.cs:82-106 | Nullable of a convertible type is convertible; "NULL" and null give null; anything else is converted as the underlying type |
| Converters.ArrayFamilyPicked | src/Settings/ObjectConverter.cs:124-144 | an array or enumerable of a convertible element type is convertible, and its conversion is the array conversion on the element type |
| Converters.ConvertArraySpecial | src/Settings/ObjectConverter.cs:146-156 | "NULL" and null give null; any casing of "EMPTY" gives an empty array of the element type |
| Converters.ConvertArrayPieces | src/Settings/ObjectConverter.cs:158-167 | other input is split at ',' and converted piece by piece: succeeds exactly when every piece converts to a value that fits the element type, with one element per piece, each that piece's value |
| Converters.ConvertArrayFailure | src/Settings/ObjectConverter.cs:158-167 | a failure is that of the first piece that gives no fitting element: its own conversion error, or the InvalidCastException when its value does not fit |
| Converters.OneStringList | src/Settings/ObjectConverter.cs:124-167 | "a" as a `List<string>` is a string array holding "a" |
| Converters.ListElementIsRefused | src/Settings/ObjectConverter.cs:164 | "a" as a `List<string>[]` fails with the InvalidCastException, because the element converter builds a `string[]` that a `List<string>` slot cannot hold |
| Converters.NullAndEmptyStringArray | src/Settings.Tests/TestObjectConverter.cs:77-81 | "NULL,EMPTY" as string[] is the array of null and the empty string |
| Converters.UnsupportedType | src/Settings.Tests/TestObjectConverter.cs:89-93 | a type nothing can convert fails with an InvalidOperationException |
| Converters.RegisteredConverterWins | src/Settings/ObjectConverter.cs:186-189 | a registered converter that matches the type is picked before every built-in one and decides the result |
| Converters.ObjectConverter.FromString | src/Settings/ObjectConverter.cs:37-40 | the result of converting with the object's current converter list |
| Converters.ObjectConverter.RegisterConverter | src/Settings/ObjectConverter.cs:186-189 | the converter goes in front of the list |
| Properties.CreateNull | src/Settings/Property.cs:26-34 | the given names and type, never optional, and a setter that does nothing |
| Properties.Create | src/Settings/Property.cs:16-24 | names and type come from the reflection data; optional exactly when the attribute is present; the setter stores into that property |
| Properties.ToStringParts | src/Settings/Property.cs:55-58 | the rendering is the declaring type, '.', the name, a '?' exactly for an optional property, then ':' and the type name |
| Properties.NullPropertyString | src/Settings.Tests/TestProperty.cs:9-15 | an all-null property renders as ".:" |
| Properties.CreatedPropertyString | src/Settings.Tests/TestProperty.cs:17-25 | the test's string property renders as "DummyClass.DummyProperty:System.String" |
| Properties.OptionalPropertyString | src/Settings.Tests/TestProperty.cs:27-35 | the test's optional boolean renders with the '?' marker |
| Properties.SetValue | src/Settings/Property.cs:50-53 | a null property's setter changes nothing; a created one stores the value under its name and nothing else when the property's type can hold it, and otherwise throws reflection's ArgumentException and changes nothing |
| Properties.ArrayIntoEnumerable | src/Settings/Property.cs:23 | a `T[]` fits a generic collection property of element type `T` exactly when the collection is one of the interfaces an array implements |
| Properties.ArrayIntoList | src/Settings/Property.cs:23 | a `List<T>` property cannot hold a `T[]` |
| ConventionBuilder.NamingConventionBuilder.constructor | src/Settings/NamingConventionBuilder.cs:19-25 | a new builder has the separator "." and the declaring-type-and-name converter |
| ConventionBuilder.NamingConventionBuilder.WithCustom | src/Settings/NamingConventionBuilder.cs:27-30 | the converter is replaced outright and the separator is kept |
| ConventionBuilder.NamingConventionBuilder.WithPrefix | src/Settings/NamingConventionBuilder.cs:51-54 | the previous converter is wrapped with the text prefix |
| ConventionBuilder.NamingConventionBuilder.WithPrefixFrom | src/Settings/NamingConventionBuilder.cs:56-59 | the previous converter is wrapped with a prefix computed from the separator |
| ConventionBuilder.NamingConventionBuilder.PascalCaseToUpperCaseWithUnderscores | src/Settings/NamingConventionBuilder.cs:32-38 | the separator becomes "_", and the previous converter is wrapped first in word separation, then in upper-casing |
| ConventionBuilder.NamingConventionBuilder.Apply | src/Settings/SettingsProvider.cs:111-112 | running the steps of a configuring action leaves the state the step function gives |
| ConventionBuilder.NamingConventionBuilder.Build | src/Settings/NamingConventionBuilder.cs:61-79 | the convention's key of every property is the current converter evaluated with the current separator |
| ConventionBuilder.StepsAppend | src/Settings/NamingConventionBuilder.cs:40-44 | applying steps and then one more is applying that step to the state the steps leave |
| ConventionBuilder.ReplaceWordBoundariesSeparatesAll | src/Settings/NamingConventionBuilder.cs:36 | the left-to-right regex replacement puts the separator at every lower-to-upper boundary |
| ConventionBuilder.SeparateWordsAppend | src/Settings/NamingConventionBuilder.cs:36 | separating a concatenation separates both parts, with a separator at the join exactly when the join is a boundary |
| ConventionBuilder.SeparateWordsWithoutBoundary | src/Settings/NamingConventionBuilder.cs:36 | a string without a boundary is left unchanged |
| ConventionBuilder.SeparateWordsRemoval | src/Settings/NamingConventionBuilder.cs:36 | removing the separator character from the result gives back the input, when the input did not hold it |
| ConventionBuilder.SeparateWordsLeavesNoBoundary | src/Settings/NamingConventionBuilder.cs:36 | with a separator that is neither kind of letter, no boundary is left |
| ConventionBuilder.SeparateTwoWords | src/Settings/NamingConventionBuilder.cs:36 | two PascalCase words written together come out separated |
| ConventionBuilder.SeparateAroundUnderscore | src/Settings/NamingConventionBuilder.cs:36 | separation works on each side of an underscore on its own |
| ConventionBuilder.FreshBuilderKey | src/Settings.Tests/TestNamingConvention.cs:8-16 | a fresh builder's key for DummyClass.DummyProperty is "DummyClass.DummyProperty" |
| ConventionBuilder.PascalCaseKey | src/Settings.Tests/TestNamingConvention.cs:18-28 | PascalCase on a fresh builder gives "DUMMY_CLASS_DUMMY_PROPERTY" |
| ConventionBuilder.DummyClassKey | src/Settings.Tests/TestNamingConvention.cs:18-28 | the regex replacement and upper-casing yield that key from "DummyClass_DummyProperty" |
| ConventionBuilder.PrefixKey | src/Settings.Tests/TestNamingConvention.cs:30-40 | a text prefix gives "Prefix.DummyClass.DummyProperty" |
| ConventionBuilder.ComputedPrefixKey | src/Settings.Tests/TestNamingConvention.cs:42-52 | a prefix function ignoring the separator gives "Prefix:DummyClass.DummyProperty" |
| ConventionBuilder.CustomKeyOfName | src/Settings.Tests/TestNamingConvention.cs:54-64 | the custom name converter gives "DummyProperty" |
| ConventionBuilder.CombinedKey | src/Settings.Tests/TestNamingConvention.cs:66-78 | custom name, prefix, then PascalCase gives "PREFIX_DUMMY_PROPERTY" |
| ConventionBuilder.PrefixKeyOfName | src/Settings.Tests/TestNamingConvention.cs:66-78 | the regex replacement and upper-casing yield that key from "prefix_DummyProperty" |
| NamingConventions.Default | src/Settings/NamingConvention.cs:10 | the key of a property is its declaring type name, ".", and its name |
| NamingConventions.DefaultEnvironment | src/Settings/NamingConvention.cs:19-26 | the key of a property is the prefix, "_" and its name, with words separated and upper-cased |
| NamingConventions.EnvironmentKeyParts | src/Settings/NamingConvention.cs:19-26 | the prefix and the name are separated and upper-cased independently, joined by "_" |
| NamingConventions.EnvironmentKeyStartsWithPrefix | src/Settings/NamingConvention.cs:12-19 | for a prefix without a boundary, every key starts with the upper-cased prefix and "_" |
| NamingConventions.EnvironmentKeyHasNoLowerCase | src/Settings/NamingConvention.cs:12-19 | environment keys hold no lower-case ASCII letter |
| NamingConventions.AppMyStringKey | src/Settings.Tests/TestSettingsProvider.cs:136-156 | prefix "APP" and property MyString give the key "APP_MY_STRING" |
| SafeStrings.GetString | src/Settings/SafeString.cs:19-32 | null renders as "(null)", a string as itself |
| SafeStrings.GetStringInjective | src/Settings/SafeString.cs:19-32 | two values render alike only when equal, or when one is null and the other is "(null)" |
| SafeStrings.GetTypeName | src/Settings/SafeString.cs:9-17 | a missing type renders as "(null)", otherwise as its full name |
| SafeStrings.GetStringList | src/Settings/SafeString.cs:34-42 | a null or empty list renders as "(null)" |
| SafeStrings.KeyListAppend | src/Settings/SafeString.cs:41 | one more key adds ", " and that key to the rendering |
| SafeStrings.SingleKeyList | src/Settings.Tests/TestSafeString.cs:44-48 | a single key renders as itself |
| SafeStrings.TwoKeyList | src/Settings.Tests/TestSafeString.cs:50-54 | two keys render joined by ", " |
| SafeStrings.ObjectTypeName | src/Settings.Tests/TestSafeString.cs:32-36 | System.Object renders as "System.Object" |
| Issues.For | src/Settings/ConversionIssue.cs:9-17 | a null settings object is an ArgumentNullException; otherwise an issue with only the settings set and no keys |
| Issues.WithProperty | src/Settings/ConversionIssue.cs:36-39 | a copy with the property replaced and every other field kept |
| Issues.WithValue | src/Settings/ConversionIssue.cs:41-44 | a copy with the value replaced and every other field kept |
| Issues.WithKeys | src/Settings/ConversionIssue.cs:46-49 | a copy with the keys replaced, null keys becoming none as the constructor does, and every other field kept |
| Issues.WithException | src/Settings/ConversionIssue.cs:52-55 | a copy with the exception replaced and every other field kept |
| Issues.WithMessage | src/Settings/ConversionIssue.cs:57-60 | a copy with the message replaced and every other field kept |
| Issues.UpdatersCommute | src/Settings/ConversionIssue.cs:36-60 | the updaters of every pair of different fields commute, for any values |
| Issues.UpdatesOverride | src/Settings/ConversionIssue.cs:36-60 | for every field, a second update overrides the first, for any two values |
| Issues.FullyBuilt | src/Settings/ConversionIssue.cs:19-60 | For followed by every updater holds exactly the given fields |
| Issues.EmptyIssueString | src/Settings.Tests/TestConversionIssue.cs:15-29 | a fresh issue renders the settings type, "(null)" for the other fields, and an empty message |
| Issues.BuiltIssueString | src/Settings/ConversionIssue.cs:62-71 | a fully built issue renders the property, the value, the keys joined by ", ", the exception's type name and the message |
| IssueReporting.GetIssueHeader | src/Settings/ConversionIssueReporter.cs:42-45 | the header is "---- Problem[", the decimal number, then "] --------------------" |
| IssueReporting.IssueHeaderNumber | src/Settings/ConversionIssueReporter.cs:42-45 | the number can be read back from the header, so distinct issues get distinct headers |
| IssueReporting.IssueHeaderIsOneLine | src/Settings/ConversionIssueReporter.cs:42-45 | a header holds no line break |
| IssueReporting.ReportHeaderIsOneLine | src/Settings/ConversionIssueReporter.cs:9 | the report header holds no line break |
| IssueReporting.RenderLines | src/Settings/ConversionIssueReporter.cs:60-66 | one line per field, each its label followed by the field's safe rendering |
| IssueReporting.RenderedLines | src/Settings/ConversionIssueReporter.cs:47-74 | when no field holds a line break, the rendering splits at line breaks into exactly the seven labelled lines |
| IssueReporting.NullIssueFields | src/Settings.Tests/TestConversionIssueReporter.cs:50-63 | a fresh issue renders the settings type and "(null)" for every other field |
| IssueReporting.SectionAsLines | src/Settings/ConversionIssueReporter.cs:31-37 | one issue's section is its header line, its rendered lines, each followed by a line break |
| IssueReporting.SectionsAsLines | src/Settings/ConversionIssueReporter.cs:31-37 | the sections of all issues are the lines of every section joined by line breaks |
| IssueReporting.SectionsSnoc | src/Settings/ConversionIssueReporter.cs:31-37 | one more issue adds its section, numbered one past the ones before |
| IssueReporting.ReportAsLines | src/Settings/ConversionIssueReporter.cs:25-39 | the report is the header line and every section's lines, each followed by a line break |
| IssueReporting.ReportLines | src/Settings/ConversionIssueReporter.cs:18-40 | when no field holds a line break, the report splits back into exactly those lines |
| IssueReporting.ReportLinesAreOneLine | src/Settings/ConversionIssueReporter.cs:18-40 | then none of those lines holds a line break |
| IssueReporting.TwoIssueReport | src/Settings.Tests/TestConversionIssueReporter.cs:17-36 | two issues report as the header, then section 1 and section 2 |
| IssueReporting.ConversionIssueReporter.AddIssue | src/Settings/ConversionIssueReporter.cs:13-16 | the issue is appended to the collected ones |
| IssueReporting.ConversionIssueReporter.ReportIssues | src/Settings/ConversionIssueReporter.cs:18-40 | nothing is thrown exactly when no issue was collected; otherwise an InvalidOperationException whose message is the report of all issues |
| SettingsProviders.GetSettingStringValue | src/Settings/SettingsProvider.cs:201-206 | null or empty exactly when every convention's key gives null or empty; otherwise the value under the first convention whose key gives a non-empty value |
| SettingsProviders.GetAttemptedKeys | src/Settings/SettingsProvider.cs:208-213 | one key per convention, in convention order |
| SettingsProviders.FirstConventionWins | src/Settings/SettingsProvider.cs:94-102 | a convention put in front decides the value whenever its key gives a non-empty value, and is passed over otherwise |
| SettingsProviders.FallsBackToDefault | src/Settings/SettingsProvider.cs:73-76 | when the user's conventions find nothing, the value is the one under "{DeclaringType}.{Name}" |
| SettingsProviders.Process | src/Settings/SettingsProvider.cs:148-183 | a missing value is "Required value missing" unless the property is optional; a type without a converter is "Unable to parse type …"; a failing conversion, or a converted value the property's setter refuses, is "Failed to convert" with the exception; otherwise the converted value is stored; every issue carries the settings, property, value and keys tried |
| SettingsProviders.CollectionPropertyIsReported | src/Settings/SettingsProvider.cs:176-181 | a collection property that is not an interface of arrays (a `List<T>`, say) with a non-null value is always reported as "Failed to convert", because the built-in converters build an array |
| SettingsProviders.Outcomes | src/Settings/SettingsProvider.cs:146-148 | one outcome per writable property, in property order |
| SettingsProviders.IssuesOfOutcomes | src/Settings/SettingsProvider.cs:148-183 | every reported outcome's issue is collected, and every collected issue is a reported outcome |
| SettingsProviders.AssignLeavesOthers | src/Settings/SettingsProvider.cs:148-183 | a property no outcome assigns keeps its value |
| SettingsProviders.AssignStores | src/Settings/SettingsProvider.cs:176-177 | an assigned property of a unique name ends with the converted value |
| SettingsProviders.SettingsProviderOptions.constructor | src/Settings/SettingsProvider.cs:73-80 | the options start with NamingConvention.Default only, the built-in converters and an empty reporter |
| SettingsProviders.SettingsProviderOptions.WithConvention | src/Settings/SettingsProvider.cs:94-102 | the convention goes in front, and the default stays last |
| SettingsProviders.SettingsProviderOptions.WithConventionSteps | src/Settings/SettingsProvider.cs:104-114 | the convention built by the steps from a fresh builder goes in front, and the default stays last |
| SettingsProviders.SettingsProviderOptions.RegisterConverter | src/Settings/SettingsProvider.cs:84-92 | the converter goes in front of the object converter's list |
| SettingsProviders.SettingsProviderOptions.WithIssueReporter | src/Settings/SettingsProvider.cs:116-119 | a null reporter is an ArgumentNullException and changes nothing; any other replaces the reporter |
| SettingsProviders.SettingsProvider.PopulateProperty | src/Settings/SettingsProvider.cs:150-182 | one property's pass stores the converted value or adds the issue that Process gives, and changes nothing else |
| SettingsProviders.SettingsProvider.ConvertProperty | src/Settings/SettingsProvider.cs:168-182 | the conversion part of that pass, with the same result |
| SettingsProviders.SettingsProvider.Populate | src/Settings/SettingsProvider.cs:139-188 | a null object is an ArgumentNullException; otherwise every writable property gets its outcome in order, the reporter gains exactly the issues among them, and the call throws the report of all its issues or returns the same object |
| SettingsProviders.CreateSettingsProvider | src/Settings/SettingsProvider.cs:12-20 | a missing configuration is an ArgumentNullException; otherwise a provider with the default convention, the built-in converters and an empty reporter |
| SettingsProviders.CreateEnvironmentSettingsProvider | src/Settings/SettingsProvider.cs:22-35 | a missing configuration is an ArgumentNullException; a null or empty prefix is an ArgumentException; otherwise the environment convention for the prefix comes before the default one |

## Left out

- The outbox and publishing pipeline of the capability service (the hosted publishing service, its repositories and the domain events it sends) is not part of this model. Only the registry and the Kafka configuration are modelled.
- KafkaPublisherFactory.Create builds a Confluent producer from the configuration. It is foreign code and is not modelled; the configuration it is given (`AsEnumerable`) is.
- DomainEvent.EventId is a fresh Guid. It is random and no lookup reads it, so an event is modelled by its runtime type only.
- Reflection is not modelled: `GetType`, `GetProperties` and `CanWrite`. A settings object carries its runtime type and the list of its public writable properties.
- `IConfiguration` is a finite map from key to value, as the in-memory and environment-variable providers hold it. Keys compare ignoring case (their `OrdinalIgnoreCase` dictionaries), but only ASCII letters are case-folded. A missing key reads as null. Other configuration providers and the layering of several providers are not modelled.
- The type descriptor converter (`TypeDescriptor.GetConverter`, `CanConvertFrom`, `ConvertFromString`) is a pair of function parameters. Whether a type is accepted, and what a string converts to or the exception it throws, are left open.
- A registered custom converter is modelled by its own match and convert functions. It cannot consult the `hasConverter` and `converters` callbacks that `IConverter` passes it.
- Converters.Convert: an exception thrown by a converter's `Matches` (reached through `HasConverter` in `Populate`) is not modelled. Matching is total.
- Properties.SetValue: which values a property accepts is modelled for the arrays the built-in array family builds. A `T[]` fits an array of `T`, the generic interfaces of arrays, and the non-generic types an array derives from. Array covariance (a `string[]` stored into an `object[]` property) is not modelled. Every other value (a string, null, or what a type descriptor or custom converter produces) is taken to fit the property's type.
- Converters.ConvertElement: an element stored with Array.SetValue follows the same rule (`Accepts`), so array covariance and a descriptor or custom value of the wrong type are not modelled there either. An exception thrown by the property's own setter code is not modelled.
- RegisterConverter, WithConvention and the constructors of the options are not modelled for a null argument; Dafny's non-null types rule it out. WithIssueReporter does model its null check.
- EventRegistry.DomainEventRegistry.GetTypeNameFor: a null event, on which `domainEvent.GetType()` throws NullReferenceException, is not modelled; a `DomainEvent` value always has a runtime type.
- The `Action<ISettingsProviderOptionsBuilder>` overload of CreateSettingsProvider runs arbitrary user code. It is left out; its effect is the option methods above called on fresh options.
- NamingConventionBuilder: a convention built from a builder does not follow later changes to that builder. C# delegates would share the builder's separator; the model does not capture that aliasing.
- `string.ToUpper` is modelled for ASCII letters only; there is no Unicode or culture-specific case mapping. The same holds for `EqualsIgnoreCase` and for configuration keys, which are built on it. `char.IsWhiteSpace` is modelled with the full .NET set of white-space characters. The regex classes in "([a-z0-9])([A-Z])" are ASCII in the source as well.
- Type.FullName of a generic type is written in the short form `Type.ToString` gives, without assembly qualification.
- Exception.ToString is the full type name, followed by ": " and the message when the message is not empty. Inner exceptions (" ---> " and the inner exception's rendering) and the stack trace are not modelled.
- Clr.ArgumentNull: the message of an ArgumentNullException is reduced to the parameter name; the framework's wording is not modelled.
- SettingsProviders.CreateEnvironmentSettingsProvider: the ArgumentException for a null or empty prefix carries only the message the source passes, "Value cannot be null or empty."; the parameter name "applicationPrefix" that the framework adds to `Message` (its wording differs between .NET versions) is not modelled.
- Environment.NewLine is "\n".
- `ConversionIssueReporter.ReportIssues` is virtual and tests override it. A subclass is not modelled, so the provider always uses the reporter class shown here.
- Concurrency is not modelled: the registry and the reporter are not thread-safe in the source either.
