/**
 * SafeString: renders possibly-null values for diagnostics. A null becomes
 * the marker "(null)"; anything else its text.
 */
module SafeStrings {
  import opened Wrappers
  import opened Text
  import opened Clr

  const NullString := "(null)"

  /**
   * GetString(object): the marker for null, otherwise the object's text. A
   * non-null object is given by what its ToString returns (a string is its
   * own text).
   */
  function GetString(text: Option<string>): (r: string)
    ensures text.None? ==> r == NullString
    ensures text.Some? ==> r == text.value
  {
    match text
    case None => NullString
    case Some(s) => s
  }

  /** Only the text "(null)" itself renders like null. */
  lemma GetStringInjective(a: Option<string>, b: Option<string>)
    requires GetString(a) == GetString(b)
    ensures a == b || (a == None && b == Some(NullString)) || (a == Some(NullString) && b == None)
  {
  }

  /** GetTypeName(Type), and GetTypeName(object) of the object's runtime type: the type's full name, or the marker. */
  function GetTypeName(t: Option<ClrType>): (r: string)
    ensures t.None? ==> r == NullString
    ensures t.Some? ==> r == FullName(t.value)
  {
    GetString(match t case None => None case Some(u) => Some(FullName(u)))
  }

  /** GetStringList(params string[]): the marker for a null or empty list, otherwise the keys joined by ", ". */
  function GetStringList(keys: Option<seq<string>>): (r: string)
    ensures keys.None? || keys == Some([]) ==> r == NullString
  {
    match keys
    case None => NullString
    case Some(ks) => if |ks| == 0 then NullString else Join(ks, ", ")
  }

  /** A single key is returned as it is. */
  lemma SingleKeyList(key: string)
    ensures GetStringList(Some([key])) == key
  {
  }

  /** Another key adds ", " and the key at the end; every key appears, in order. */
  lemma KeyListAppend(keys: seq<string>, key: string)
    requires |keys| > 0
    ensures GetStringList(Some(keys + [key])) == GetStringList(Some(keys)) + ", " + key
  {
    JoinConcat(keys, [key], ", ");
  }

  /** The two-key list of the tests. */
  lemma TwoKeyList(first: string, second: string)
    ensures GetStringList(Some([first, second])) == first + ", " + second
  {
    KeyListAppend([first], second);
    assert [first] + [second] == [first, second];
  }

  /** System.Object's name, as GetTypeName gives it for `new object()`. */
  lemma ObjectTypeName()
    ensures GetTypeName(Some(OtherType("System.Object"))) == "System.Object"
  {
  }
}
