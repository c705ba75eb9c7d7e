/**
 * KafkaPublisherFactory.KafkaConfiguration: the producer settings read from
 * the environment. Each of a fixed list of dotted client keys is looked up
 * under an environment key derived from it; blank values are dropped; a fixed
 * request timeout is always appended.
 */
module KafkaConfiguration {
  import opened Wrappers
  import opened Text
  import opened Configurations

  const KeyPrefix := "CAPABILITY_SERVICE_KAFKA_"

  /** The client keys looked up, in the order they are looked up. */
  const ConfigurationKeys: seq<string> := [
    "bootstrap.servers",
    "broker.version.fallback",
    "api.version.fallback.ms",
    "ssl.ca.location",
    "sasl.username",
    "sasl.password",
    "sasl.mechanisms",
    "security.protocol"
  ]

  /** The one setting that does not come from the environment. */
  const RequestTimeout: (string, string) := ("request.timeout.ms", "3000")

  /** The environment key of a client key: the prefix, then the key upper-cased with '.' turned into '_'. */
  function Key(keyName: string): string
  {
    KeyPrefix + ReplaceChar(ToUpper(keyName), '.', '_')
  }

  /** Every environment key starts with the prefix and spells the client key character by character. */
  lemma KeyShape(keyName: string)
    ensures var r := Key(keyName);
      && |r| == |KeyPrefix| + |keyName|
      && r[..|KeyPrefix|] == KeyPrefix
      && forall i :: 0 <= i < |keyName| ==> r[|KeyPrefix| + i] == (if keyName[i] == '.' then '_' else ToUpperChar(keyName[i]))
  {
    var converted := ReplaceChar(ToUpper(keyName), '.', '_');
    assert Key(keyName) == KeyPrefix + converted;
    assert forall i :: 0 <= i < |keyName| ==> (KeyPrefix + converted)[|KeyPrefix| + i] == converted[i];
  }

  /** The (client key, value) pair for one key, or nothing when the environment value is null, empty or white space. */
  function GetConfiguration(configuration: Configuration, key: string): (r: Option<(string, string)>)
    ensures r.None? <==> IsNullOrWhiteSpace(Lookup(configuration, Key(key)))
    ensures r.Some? ==> r.value.0 == key && Lookup(configuration, Key(key)) == Some(r.value.1)
  {
    var value := Lookup(configuration, Key(key));
    if IsNullOrWhiteSpace(value) then None else Some((key, value.value))
  }

  function KeysOf(pairs: seq<(string, string)>): (r: seq<string>)
    ensures |r| == |pairs|
    ensures forall i :: 0 <= i < |pairs| ==> r[i] == pairs[i].0
  {
    if pairs == [] then [] else [pairs[0].0] + KeysOf(pairs[1..])
  }

  /** `a` is `b` with zero or more elements left out. */
  predicate IsSubsequence<T(==)>(a: seq<T>, b: seq<T>)
  {
    if b == [] then a == []
    else (a != [] && a[0] == b[0] && IsSubsequence(a[1..], b[1..])) || IsSubsequence(a, b[1..])
  }

  predicate Distinct<T(==)>(s: seq<T>)
  {
    forall i, j :: 0 <= i < j < |s| ==> s[i] != s[j]
  }

  /** A subsequence of a list without repetitions has no repetitions and only elements of the list. */
  lemma {:induction false} SubsequenceOfDistinct<T>(a: seq<T>, b: seq<T>)
    requires IsSubsequence(a, b) && Distinct(b)
    ensures Distinct(a)
    ensures forall x :: x in a ==> x in b
  {
    if b != [] {
      assert Distinct(b[1..]);
      assert forall x :: x in b[1..] ==> x in b;
      if a != [] && a[0] == b[0] && IsSubsequence(a[1..], b[1..]) {
        SubsequenceOfDistinct(a[1..], b[1..]);
        assert b[0] !in b[1..];
        assert forall j :: 0 < j < |a| ==> a[j] == a[1..][j - 1] && a[j] in b[1..];
      } else {
        SubsequenceOfDistinct(a, b[1..]);
      }
    }
  }

  /**
   * The Select/Where part of AsEnumerable: the pairs of the keys that have a
   * value, in list order.
   */
  function Present(configuration: Configuration, keys: seq<string>): (r: seq<(string, string)>)
    ensures |r| <= |keys|
    ensures IsSubsequence(KeysOf(r), keys)
    ensures forall i :: 0 <= i < |r| ==> r[i].0 in keys && GetConfiguration(configuration, r[i].0) == Some(r[i])
    ensures forall k :: k in keys && GetConfiguration(configuration, k).Some? ==> GetConfiguration(configuration, k).value in r
  {
    if keys == [] then []
    else
      var rest := Present(configuration, keys[1..]);
      assert forall x :: x in keys[1..] ==> x in keys;
      match GetConfiguration(configuration, keys[0])
      case Some(pair) =>
        assert KeysOf([pair] + rest) == [keys[0]] + KeysOf(rest);
        [pair] + rest
      case None =>
        rest
  }

  lemma ConfigurationKeysAreDistinct()
    ensures Distinct(ConfigurationKeys)
    ensures RequestTimeout.0 !in ConfigurationKeys
  {
  }

  /** The environment side of AsEnumerable: every listed pair is a non-blank environment value of a listed key, and every such value is listed. */
  lemma PresentValues(configuration: Configuration, keys: seq<string>)
    ensures var config := Present(configuration, keys);
      && (forall i :: 0 <= i < |config| ==>
            Lookup(configuration, Key(config[i].0)) == Some(config[i].1) &&
            !IsNullOrWhiteSpace(Some(config[i].1)))
      && (forall k :: k in keys && !IsNullOrWhiteSpace(Lookup(configuration, Key(k))) ==>
            (k, Lookup(configuration, Key(k)).value) in config)
  {
    var config := Present(configuration, keys);
    forall i | 0 <= i < |config|
      ensures Lookup(configuration, Key(config[i].0)) == Some(config[i].1)
      ensures !IsNullOrWhiteSpace(Some(config[i].1))
    {
      assert GetConfiguration(configuration, config[i].0) == Some(config[i]);
    }
    forall k | k in keys && !IsNullOrWhiteSpace(Lookup(configuration, Key(k)))
      ensures (k, Lookup(configuration, Key(k)).value) in config
    {
      assert GetConfiguration(configuration, k).Some?;
    }
  }

  /** The key side of AsEnumerable: listed keys come from `keys`, in order, once each, and never as the timeout key. */
  lemma PresentKeys(configuration: Configuration, keys: seq<string>)
    requires Distinct(keys) && RequestTimeout.0 !in keys
    ensures var r := Present(configuration, keys) + [RequestTimeout];
      forall i, j :: 0 <= i < j < |r| ==> r[i].0 != r[j].0
  {
    var config := Present(configuration, keys);
    var names := KeysOf(config);
    SubsequenceOfDistinct(names, keys);
    var r := config + [RequestTimeout];
    forall i, j | 0 <= i < j < |r| ensures r[i].0 != r[j].0 {
      if j < |config| {
        assert r[i].0 == names[i] && r[j].0 == names[j];
      } else {
        assert r[i].0 == config[i].0 && r[i].0 in keys;
      }
    }
  }

  /**
   * The settings for a list of client keys: the present ones in list order,
   * then the request timeout, which is there whatever the environment holds.
   */
  function Settings(configuration: Configuration, keys: seq<string>): (r: seq<(string, string)>)
    ensures 1 <= |r| <= |keys| + 1
    ensures r[|r| - 1] == RequestTimeout
  {
    Present(configuration, keys) + [RequestTimeout]
  }

  /** Every listed pair but the timeout is a non-blank environment value of a listed key, and every such value is listed. */
  lemma SettingsValues(configuration: Configuration, keys: seq<string>)
    ensures var r := Settings(configuration, keys);
      && (forall i :: 0 <= i < |r| - 1 ==>
            r[i].0 in keys && Lookup(configuration, Key(r[i].0)) == Some(r[i].1) &&
            !IsNullOrWhiteSpace(Some(r[i].1)))
      && (forall k :: k in keys && !IsNullOrWhiteSpace(Lookup(configuration, Key(k))) ==>
            (k, Lookup(configuration, Key(k)).value) in r[..|r| - 1])
  {
    var config := Present(configuration, keys);
    PresentValues(configuration, keys);
    var r := Settings(configuration, keys);
    assert r[..|r| - 1] == config;
    assert forall i :: 0 <= i < |r| - 1 ==> r[i] == config[i];
  }

  /** The listed keys follow `keys` in order, and no key is listed twice, the timeout's included. */
  lemma SettingsKeys(configuration: Configuration, keys: seq<string>)
    requires Distinct(keys) && RequestTimeout.0 !in keys
    ensures var r := Settings(configuration, keys);
      && IsSubsequence(KeysOf(r[..|r| - 1]), keys)
      && forall i, j :: 0 <= i < j < |r| ==> r[i].0 != r[j].0
  {
    var r := Settings(configuration, keys);
    assert r[..|r| - 1] == Present(configuration, keys);
    PresentKeys(configuration, keys);
  }

  /** AsEnumerable: the settings for the fixed list of client keys. */
  function AsEnumerable(configuration: Configuration): (r: seq<(string, string)>)
    ensures 1 <= |r| <= |ConfigurationKeys| + 1
    ensures r[|r| - 1] == RequestTimeout
  {
    Settings(configuration, ConfigurationKeys)
  }

  /** What AsEnumerable lists: the client keys with a non-blank environment value, in list order, once each, then the timeout. */
  lemma AsEnumerableContents(configuration: Configuration)
    ensures var r := AsEnumerable(configuration);
      && IsSubsequence(KeysOf(r[..|r| - 1]), ConfigurationKeys)
      && (forall i, j :: 0 <= i < j < |r| ==> r[i].0 != r[j].0)
      && (forall i :: 0 <= i < |r| - 1 ==>
            r[i].0 in ConfigurationKeys && Lookup(configuration, Key(r[i].0)) == Some(r[i].1) &&
            !IsNullOrWhiteSpace(Some(r[i].1)))
      && (forall k :: k in ConfigurationKeys && !IsNullOrWhiteSpace(Lookup(configuration, Key(k))) ==>
            (k, Lookup(configuration, Key(k)).value) in r[..|r| - 1])
  {
    ConfigurationKeysAreDistinct();
    SettingsValues(configuration, ConfigurationKeys);
    SettingsKeys(configuration, ConfigurationKeys);
  }
}
