/**
 * ConversionIssue: an immutable record of one value that could not be bound
 * to a settings property. Every With* updater returns a copy with one field
 * replaced.
 */
module Issues {
  import opened Wrappers
  import opened Clr
  import opened Properties
  import opened SafeStrings

  datatype ConversionIssue = ConversionIssue(
    settings: SettingsObject,
    property: Option<Property>,
    value: Option<string>,
    keys: seq<string>,
    exception: Option<Exception>,
    message: Option<string>)

  /** ConversionIssue.For: an issue about `settings` with nothing else known; a null settings object is an ArgumentNullException. */
  function For(settings: Option<SettingsObject>): (r: Result<ConversionIssue, Exception>)
    ensures settings.None? <==> r.Failure?
    ensures settings.None? ==> r.error == ArgumentNull("settings")
    ensures settings.Some? ==> r.value.settings == settings.value && r.value.keys == []
    ensures settings.Some? ==> r.value.property.None? && r.value.value.None? && r.value.exception.None? && r.value.message.None?
  {
    match settings
    case None => Failure(ArgumentNull("settings"))
    case Some(s) => Success(ConversionIssue(s, None, None, [], None, None))
  }

  function WithProperty(issue: ConversionIssue, property: Option<Property>): (r: ConversionIssue)
    ensures r.property == property
    ensures r == issue.(property := property)
  {
    issue.(property := property)
  }

  function WithValue(issue: ConversionIssue, value: Option<string>): (r: ConversionIssue)
    ensures r.value == value
    ensures r == issue.(value := value)
  {
    issue.(value := value)
  }

  /** WithKeys(params string[]): a null list of keys is stored as the empty list. */
  function WithKeys(issue: ConversionIssue, keys: Option<seq<string>>): (r: ConversionIssue)
    ensures keys.None? ==> r.keys == []
    ensures keys.Some? ==> r.keys == keys.value
    ensures r == issue.(keys := r.keys)
  {
    issue.(keys := match keys case None => [] case Some(ks) => ks)
  }

  function WithException(issue: ConversionIssue, exception: Option<Exception>): (r: ConversionIssue)
    ensures r.exception == exception
    ensures r == issue.(exception := exception)
  {
    issue.(exception := exception)
  }

  function WithMessage(issue: ConversionIssue, message: Option<string>): (r: ConversionIssue)
    ensures r.message == message
    ensures r == issue.(message := message)
  {
    issue.(message := message)
  }

  /** Updaters of different fields commute. */
  lemma UpdatersCommute(issue: ConversionIssue, p: Option<Property>, v: Option<string>, ks: Option<seq<string>>, e: Option<Exception>, m: Option<string>)
    ensures WithValue(WithProperty(issue, p), v) == WithProperty(WithValue(issue, v), p)
    ensures WithKeys(WithProperty(issue, p), ks) == WithProperty(WithKeys(issue, ks), p)
    ensures WithException(WithProperty(issue, p), e) == WithProperty(WithException(issue, e), p)
    ensures WithMessage(WithProperty(issue, p), m) == WithProperty(WithMessage(issue, m), p)
    ensures WithKeys(WithValue(issue, v), ks) == WithValue(WithKeys(issue, ks), v)
    ensures WithException(WithValue(issue, v), e) == WithValue(WithException(issue, e), v)
    ensures WithMessage(WithValue(issue, v), m) == WithValue(WithMessage(issue, m), v)
    ensures WithException(WithKeys(issue, ks), e) == WithKeys(WithException(issue, e), ks)
    ensures WithMessage(WithKeys(issue, ks), m) == WithKeys(WithMessage(issue, m), ks)
    ensures WithMessage(WithException(issue, e), m) == WithException(WithMessage(issue, m), e)
  {
  }

  /** A second update of a field overrides the first, whatever the two values. */
  lemma UpdatesOverride(issue: ConversionIssue, p1: Option<Property>, p2: Option<Property>, v1: Option<string>, v2: Option<string>,
                        ks1: Option<seq<string>>, ks2: Option<seq<string>>, e1: Option<Exception>, e2: Option<Exception>,
                        m1: Option<string>, m2: Option<string>)
    ensures WithProperty(WithProperty(issue, p1), p2) == WithProperty(issue, p2)
    ensures WithValue(WithValue(issue, v1), v2) == WithValue(issue, v2)
    ensures WithKeys(WithKeys(issue, ks1), ks2) == WithKeys(issue, ks2)
    ensures WithException(WithException(issue, e1), e2) == WithException(issue, e2)
    ensures WithMessage(WithMessage(issue, m1), m2) == WithMessage(issue, m2)
  {
  }

  /** An issue built by For and every updater holds exactly the given fields. */
  lemma FullyBuilt(settings: SettingsObject, p: Property, v: string, keys: seq<string>, e: Exception, m: string)
    ensures var issue := For(Some(settings)).value;
      WithMessage(WithException(WithKeys(WithValue(WithProperty(issue, Some(p)), Some(v)), Some(keys)), Some(e)), Some(m)) ==
      ConversionIssue(settings, Some(p), Some(v), keys, Some(e), Some(m))
  {
  }

  /**
   * ConversionIssue.ToString: the fields as "Name: text" in the order
   * Settings, Property, Value, Keys, Exception, Message, separated by ", ".
   * The exception shows as its type name; a null message shows as nothing,
   * the other null fields as "(null)".
   */
  function ToString(issue: ConversionIssue): string
  {
    "Settings: " + GetTypeName(Some(issue.settings.runtimeType)) +
    ", Property: " + GetString(match issue.property case None => None case Some(p) => Some(Properties.ToString(p))) +
    ", Value: " + GetString(issue.value) +
    ", Keys: " + GetStringList(Some(issue.keys)) +
    ", Exception: " + GetTypeName(match issue.exception case None => None case Some(e) => Some(e.exceptionType)) +
    ", Message: " + OrEmpty(issue.message)
  }

  /** The rendering of an issue fresh from For: every field but the settings type is the null marker, and the message is empty. */
  lemma EmptyIssueString(settings: SettingsObject)
    ensures ToString(For(Some(settings)).value) ==
      "Settings: " + FullName(settings.runtimeType) + ", Property: " + NullString + ", Value: " + NullString +
      ", Keys: " + NullString + ", Exception: " + NullString + ", Message: "
  {
    assert OrEmpty(None) == "";
  }

  /** The rendering of a fully built issue names the property, the value, the keys, the exception's type and the message. */
  lemma BuiltIssueString(settings: SettingsObject, p: Property, v: string, first: string, second: string, e: Exception, m: string)
    ensures var issue := ConversionIssue(settings, Some(p), Some(v), [first, second], Some(e), Some(m));
      ToString(issue) ==
      "Settings: " + FullName(settings.runtimeType) + ", Property: " + Properties.ToString(p) + ", Value: " + v +
      ", Keys: " + first + ", " + second + ", Exception: " + FullName(e.exceptionType) + ", Message: " + m
  {
    TwoKeyList(first, second);
  }
}
