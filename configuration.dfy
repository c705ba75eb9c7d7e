/**
 * IConfiguration as the core reads it: a store of string values under
 * string keys. The configuration providers hold their keys in dictionaries
 * that compare keys ignoring case, so a key is found whatever its spelling.
 */
module Configurations {
  import opened Wrappers
  import opened Text

  /** Every key is held upper-cased, so keys that differ only in case are one key. */
  type Configuration = m: map<string, string> | forall k :: k in m ==> ToUpper(k) == k

  /** The indexer: the value under the key, compared ignoring case, or null when there is none. */
  function Lookup(configuration: Configuration, key: string): Option<string>
  {
    var k := ToUpper(key);
    if k in configuration then Some(configuration[k]) else None
  }

  /** Storing a value under a key, as a configuration source does; it replaces the value under every spelling of that key. */
  function With(configuration: Configuration, key: string, value: string): Configuration
  {
    ToUpperIdempotent(key);
    configuration[ToUpper(key) := value]
  }

  /** Looking up an added key in any spelling gives its value; every other key keeps its value. */
  lemma LookupWith(configuration: Configuration, key: string, value: string, other: string)
    ensures Lookup(With(configuration, key, value), other) ==
      if EqualsIgnoreCase(other, key) then Some(value) else Lookup(configuration, other)
  {
    ToUpperIdempotent(key);
  }

  /** Keys that differ only in case look up the same value. */
  lemma LookupIgnoresCase(configuration: Configuration, a: string, b: string)
    requires EqualsIgnoreCase(a, b)
    ensures Lookup(configuration, a) == Lookup(configuration, b)
  {
  }

  /** A value stored under "testsettings.mybool" is found under the settings key "TestSettings.MyBool". */
  lemma MixedCaseKey(stored: string, asked: string)
    requires stored == "testsettings.mybool" && asked == "TestSettings.MyBool"
    ensures Lookup(With(map[], stored, "True"), asked) == Some("True")
  {
    var upper := "TESTSETTINGS.MYBOOL";
    assert forall i :: 0 <= i < |upper| ==> upper[i] == ToUpper(stored)[i];
    assert forall i :: 0 <= i < |upper| ==> upper[i] == ToUpper(asked)[i];
    LookupWith(map[], stored, "True", asked);
  }
}
