/**
 * ObjectConverter: turns a configuration string into a value of a requested
 * type. The converter families are tried in list order and the first one that
 * matches the type is used; the array and nullable families match only when
 * their element or underlying type can itself be converted, and convert
 * through the same list again.
 */
module Converters {
  import opened Wrappers
  import opened Text
  import opened Clr

  const NullString := "NULL"
  const EmptyString := "EMPTY"

  /** The objects a conversion can produce. */
  datatype Value =
    | NullValue
    | StringValue(text: string)
    | ArrayValue(elementType: ClrType, items: seq<Value>)
      /** whatever a type descriptor or a custom converter built from a string */
    | Boxed(boxedType: ClrType, source: string)

  /** The generic interfaces a one-dimensional array T[] implements with T as their type argument. */
  const ArrayInterfaces: set<string> := {
    "System.Collections.Generic.IEnumerable`1",
    "System.Collections.Generic.ICollection`1",
    "System.Collections.Generic.IList`1",
    "System.Collections.Generic.IReadOnlyCollection`1",
    "System.Collections.Generic.IReadOnlyList`1"
  }

  /** The non-generic types every array is an instance of. */
  const ArrayBaseTypes: set<string> := {
    "System.Object",
    "System.Array",
    "System.ICloneable",
    "System.Collections.IEnumerable",
    "System.Collections.ICollection",
    "System.Collections.IList",
    "System.Collections.IStructuralComparable",
    "System.Collections.IStructuralEquatable"
  }

  /**
   * Whether a slot of type `t` can hold `value`: a property set through
   * PropertyInfo.SetValue, or an element stored with Array.SetValue. An
   * array fits a slot of its own type or of a type it implements; List<T>
   * and the other collection classes are not among those. Every other value
   * is taken to fit, as the converter built it for `t`.
   */
  predicate Accepts(t: ClrType, value: Value)
  {
    match value
    case ArrayValue(e, _) =>
      || t == ArrayType(e)
      || (t.EnumerableType? && t.argument == e && t.definition in ArrayInterfaces)
      || (t.OtherType? && t.fullName in ArrayBaseTypes)
    case _ => true
  }

  /**
   * System.ComponentModel.TypeDescriptor, which this model does not look
   * into: whether the type's descriptor accepts strings, and what it makes
   * of one (it may throw).
   */
  datatype TypeDescriptors = TypeDescriptors(
    canConvertFromString: ClrType -> bool,
    convertFromString: (ClrType, Option<string>) -> Result<Value, Exception>)

  /** An IConverter: the four built-in families and user-registered ones. */
  datatype Converter =
    | StringConverter
    | ArrayConverter
    | NullableConverter
    | TypeDescriptorConverter(descriptors: TypeDescriptors)
    | Custom(matches: ClrType -> bool, convert: (ClrType, Option<string>) -> Result<Value, Exception>)

  /** The converter list of a new ObjectConverter. */
  function Builtins(descriptors: TypeDescriptors): seq<Converter>
  {
    [StringConverter, ArrayConverter, NullableConverter, TypeDescriptorConverter(descriptors)]
  }

  /** IConverter.Matches, where `all` is the list HasConverter consults. */
  predicate Matches(all: seq<Converter>, c: Converter, t: ClrType)
    decreases t, 0
  {
    match c
    case StringConverter => t == StringType
    case ArrayConverter =>
      (match t
       case ArrayType(e) => HasConverter(all, e)
       case EnumerableType(_, e) => HasConverter(all, e)
       case _ => false)
    case NullableConverter =>
      (match t
       case NullableType(u) => HasConverter(all, u)
       case _ => false)
    case TypeDescriptorConverter(descriptors) => descriptors.canConvertFromString(t)
    case Custom(matches, _) => matches(t)
  }

  /** ObjectConverter.HasConverter: some converter of the list matches. */
  predicate HasConverter(all: seq<Converter>, t: ClrType)
    decreases t, 1
  {
    exists i :: 0 <= i < |all| && Matches(all, all[i], t)
  }

  /** The position of the first converter at or after `from` that matches `t`. */
  function FirstMatch(all: seq<Converter>, t: ClrType, from: nat): (r: Option<nat>)
    requires from <= |all|
    ensures r.Some? ==> from <= r.value < |all| && Matches(all, all[r.value], t)
    ensures r.Some? ==> forall i :: from <= i < r.value ==> !Matches(all, all[i], t)
    ensures r.None? <==> forall i :: from <= i < |all| ==> !Matches(all, all[i], t)
    decreases |all| - from
  {
    if from == |all| then None
    else if Matches(all, all[from], t) then Some(from)
    else FirstMatch(all, t, from + 1)
  }

  /** ObjectConverter.FindConverter: the first converter in list order that matches, if there is one. */
  function FindConverter(all: seq<Converter>, t: ClrType): (r: Option<nat>)
    ensures r.Some? ==> r.value < |all| && Matches(all, all[r.value], t)
    ensures r.Some? ==> forall i :: 0 <= i < r.value ==> !Matches(all, all[i], t)
    ensures r.None? <==> !HasConverter(all, t)
  {
    FirstMatch(all, t, 0)
  }

  function NoConverterError(t: ClrType): Exception
  {
    InvalidOperation("Unable to find a converter implementation for " + FullName(t))
  }

  /**
   * ObjectConverter.FromString(stringValue, type): the converter FindConverter
   * picks, applied to the string, or the InvalidOperationException it throws.
   */
  function Convert(all: seq<Converter>, t: ClrType, s: Option<string>): (r: Result<Value, Exception>)
    ensures !HasConverter(all, t) ==> r == Failure(NoConverterError(t))
    decreases t, 1, 0
  {
    match FindConverter(all, t)
    case None => Failure(NoConverterError(t))
    case Some(i) => Apply(all, all[i], t, s)
  }

  /** The function CreateConverter returns, applied to one string. */
  function Apply(all: seq<Converter>, c: Converter, t: ClrType, s: Option<string>): (r: Result<Value, Exception>)
    requires Matches(all, c, t)
    decreases t, 0, 0
  {
    match c
    case StringConverter =>
      if s == Some(EmptyString) then Success(StringValue(""))
      else if s == Some(NullString) || s.None? then Success(NullValue)
      else Success(StringValue(s.value))
    case NullableConverter =>
      (match t
       case NullableType(u) =>
         if s == Some(NullString) || s.None? then Success(NullValue)
         else Convert(all, u, s))
    case ArrayConverter =>
      (match t
       case ArrayType(e) => ConvertArray(all, e, s)
       case EnumerableType(_, e) => ConvertArray(all, e, s))
    case TypeDescriptorConverter(descriptors) => descriptors.convertFromString(t, s)
    case Custom(_, convert) => convert(t, s)
  }

  /** The element type the array family converts to: an array's element type or an enumerable's type argument. */
  function ElementType(t: ClrType): ClrType
    requires t.ArrayType? || t.EnumerableType?
  {
    if t.ArrayType? then t.element else t.argument
  }

  /** The array family's conversion of one string into an array of `e`. */
  function ConvertArray(all: seq<Converter>, e: ClrType, s: Option<string>): (r: Result<Value, Exception>)
    decreases e, 4, 0
  {
    if s == Some(NullString) || s.None? then Success(NullValue)
    else if EqualsIgnoreCase(s.value, EmptyString) then Success(ArrayValue(e, []))
    else
      match ConvertPieces(all, e, Split(s.value, ','))
      case Success(items) => Success(ArrayValue(e, items))
      case Failure(error) => Failure(error)
  }

  /** The InvalidCastException Array.SetValue throws for an element the array's element type cannot hold. */
  const ArrayStoreError := Exception(OtherType("System.InvalidCastException"), "Object cannot be stored in an array of this type.")

  /**
   * One element of the array family: a piece converted with the element
   * type's converter and then stored into an array of `e`.
   */
  function ConvertElement(all: seq<Converter>, e: ClrType, piece: string): (r: Result<Value, Exception>)
    ensures var c := Convert(all, e, Some(piece));
      && (c.Failure? ==> r == c)
      && (c.Success? && Accepts(e, c.value) ==> r == c)
      && (c.Success? && !Accepts(e, c.value) ==> r == Failure(ArrayStoreError))
    decreases e, 2, 0
  {
    match Convert(all, e, Some(piece))
    case Failure(error) => Failure(error)
    case Success(v) => if Accepts(e, v) then Success(v) else Failure(ArrayStoreError)
  }

  /**
   * The element loop of the array family: every piece converted and stored,
   * failing with the first piece whose conversion or store fails.
   */
  function ConvertPieces(all: seq<Converter>, e: ClrType, pieces: seq<string>): (r: Result<seq<Value>, Exception>)
    ensures r.Success? <==> forall k :: 0 <= k < |pieces| ==> ConvertElement(all, e, pieces[k]).Success?
    ensures r.Success? ==> |r.value| == |pieces|
    ensures r.Success? ==> forall k :: 0 <= k < |pieces| ==> r.value[k] == ConvertElement(all, e, pieces[k]).value
    ensures r.Failure? ==>
      exists k :: 0 <= k < |pieces| && ConvertElement(all, e, pieces[k]) == Failure(r.error) &&
        (forall j :: 0 <= j < k ==> ConvertElement(all, e, pieces[j]).Success?)
    decreases e, 3, |pieces|
  {
    if pieces == [] then Success([])
    else
      match ConvertElement(all, e, pieces[0])
      case Failure(error) => Failure(error)
      case Success(v) =>
        match ConvertPieces(all, e, pieces[1..])
        case Failure(error) =>
          assert forall k :: 1 <= k < |pieces| ==> pieces[1..][k - 1] == pieces[k];
          Failure(error)
        case Success(vs) =>
          assert forall k :: 1 <= k < |pieces| ==> pieces[1..][k - 1] == pieces[k];
          Success([v] + vs)
  }

  /**
   * The array family's loop over a fresh array: element `i` is set to the
   * element converter applied to piece `i`; a throwing element converter or
   * a refused store ends the conversion.
   */
  method FillArray(all: seq<Converter>, e: ClrType, pieces: seq<string>) returns (r: Result<seq<Value>, Exception>)
    ensures r == ConvertPieces(all, e, pieces)
  {
    var values := new Value[|pieces|](_ => NullValue);
    for i := 0 to |pieces|
      invariant forall k :: 0 <= k < i ==> ConvertElement(all, e, pieces[k]).Success?
      invariant forall k :: 0 <= k < i ==> values[k] == ConvertElement(all, e, pieces[k]).value
    {
      var value := Convert(all, e, Some(pieces[i]));
      if value.Failure? {
        Stored(all, e, pieces, i, value.error);
        return Failure(value.error);
      }
      if !Accepts(e, value.value) {
        Stored(all, e, pieces, i, ArrayStoreError);
        return Failure(ArrayStoreError);
      }
      values[i] := value.value;
    }
    assert values[..] == ConvertPieces(all, e, pieces).value;
    return Success(values[..]);
  }

  /** The first piece whose element fails decides the failure of the whole loop. */
  lemma Stored(all: seq<Converter>, e: ClrType, pieces: seq<string>, i: nat, error: Exception)
    requires i < |pieces| && ConvertElement(all, e, pieces[i]) == Failure(error)
    requires forall k :: 0 <= k < i ==> ConvertElement(all, e, pieces[k]).Success?
    ensures ConvertPieces(all, e, pieces) == Failure(error)
  {
    var expected := ConvertPieces(all, e, pieces);
    var k :| 0 <= k < |pieces| && ConvertElement(all, e, pieces[k]) == Failure(expected.error) &&
      (forall j :: 0 <= j < k ==> ConvertElement(all, e, pieces[j]).Success?);
    assert k == i;
  }

  /** Which types the built-in list can convert: strings always; arrays, enumerables and nullables when their element or underlying type can be converted; anything the type descriptor accepts. */
  lemma BuiltinsHaveConverter(descriptors: TypeDescriptors, t: ClrType)
    ensures var all := Builtins(descriptors);
      HasConverter(all, t) <==>
        || t == StringType
        || ((t.ArrayType? || t.EnumerableType?) && HasConverter(all, ElementType(t)))
        || (t.NullableType? && HasConverter(all, t.underlying))
        || descriptors.canConvertFromString(t)
  {
    var all := Builtins(descriptors);
    if HasConverter(all, t) {
      var i :| 0 <= i < |all| && Matches(all, all[i], t);
      assert i == 0 || i == 1 || i == 2 || i == 3;
    }
    if t == StringType {
      assert Matches(all, all[0], t);
    } else if (t.ArrayType? || t.EnumerableType?) && HasConverter(all, ElementType(t)) {
      assert Matches(all, all[1], t);
    } else if t.NullableType? && HasConverter(all, t.underlying) {
      assert Matches(all, all[2], t);
    } else if descriptors.canConvertFromString(t) {
      assert Matches(all, all[3], t);
    }
  }

  /** The string family: "EMPTY" gives the empty string, "NULL" and null give null, any other string comes back unchanged. */
  lemma StringFamily(descriptors: TypeDescriptors, s: Option<string>)
    ensures var r := Convert(Builtins(descriptors), StringType, s);
      && (s == Some(EmptyString) ==> r == Success(StringValue("")))
      && (s == Some(NullString) || s.None? ==> r == Success(NullValue))
      && (s.Some? && s.value != EmptyString && s.value != NullString ==> r == Success(StringValue(s.value)))
  {
    var all := Builtins(descriptors);
    assert Matches(all, all[0], StringType);
  }

  /** The nullable family: "NULL" and null give null; anything else goes to the underlying type's converter. */
  lemma NullableFamily(descriptors: TypeDescriptors, u: ClrType, s: Option<string>)
    requires HasConverter(Builtins(descriptors), u)
    ensures HasConverter(Builtins(descriptors), NullableType(u))
    ensures var all := Builtins(descriptors); var r := Convert(all, NullableType(u), s);
      && (s == Some(NullString) || s.None? ==> r == Success(NullValue))
      && (s.Some? && s.value != NullString ==> r == Convert(all, u, s))
  {
    var all := Builtins(descriptors);
    assert Matches(all, all[2], NullableType(u));
    assert FindConverter(all, NullableType(u)) == Some(2) by {
      assert !Matches(all, all[0], NullableType(u)) && !Matches(all, all[1], NullableType(u));
    }
  }

  /** The built-in list hands arrays and generic enumerables whose element type it can convert to the array family. */
  lemma ArrayFamilyPicked(descriptors: TypeDescriptors, t: ClrType, s: Option<string>)
    requires t.ArrayType? || t.EnumerableType?
    requires HasConverter(Builtins(descriptors), ElementType(t))
    ensures HasConverter(Builtins(descriptors), t)
    ensures Convert(Builtins(descriptors), t, s) == ConvertArray(Builtins(descriptors), ElementType(t), s)
  {
    var all := Builtins(descriptors);
    assert Matches(all, all[1], t);
    assert FindConverter(all, t) == Some(1) by {
      assert !Matches(all, all[0], t);
    }
  }

  /** The array family's conversion: "NULL" and null give null, "EMPTY" in any letter case the empty array. */
  lemma ConvertArraySpecial(all: seq<Converter>, e: ClrType, s: Option<string>)
    ensures s == Some(NullString) || s.None? ==> ConvertArray(all, e, s) == Success(NullValue)
    ensures s.Some? && s.value != NullString && EqualsIgnoreCase(s.value, EmptyString) ==>
      ConvertArray(all, e, s) == Success(ArrayValue(e, []))
  {
  }

  /**
   * Any other text: one element per comma-separated piece, element k being
   * the element converter applied to the k-th piece. The conversion succeeds
   * exactly when every piece converts to a value that fits the element type.
   */
  lemma ConvertArrayPieces(all: seq<Converter>, e: ClrType, text: string)
    requires text != NullString && !EqualsIgnoreCase(text, EmptyString)
    ensures var pieces := Split(text, ',');
      ConvertArray(all, e, Some(text)).Success? <==>
      forall k :: 0 <= k < |pieces| ==> Fits(all, e, pieces[k])
    ensures var r := ConvertArray(all, e, Some(text));
      r.Success? ==> r.value.ArrayValue? && r.value.elementType == e && |r.value.items| == Count(text, ',') + 1
    ensures var pieces, r := Split(text, ','), ConvertArray(all, e, Some(text));
      r.Success? ==> forall k :: 0 <= k < |pieces| ==> r.value.items[k] == Convert(all, e, Some(pieces[k])).value && Accepts(e, r.value.items[k])
  {
    var pieces := Split(text, ',');
    var c := ConvertPieces(all, e, pieces);
    forall k | 0 <= k < |pieces|
      ensures ConvertElement(all, e, pieces[k]).Success? <==>
        Fits(all, e, pieces[k])
      ensures ConvertElement(all, e, pieces[k]).Success? ==> ConvertElement(all, e, pieces[k]).value == Convert(all, e, Some(pieces[k])).value
    {
      ElementFits(all, e, pieces[k]);
    }
    if c.Success? {
      assert ConvertArray(all, e, Some(text)) == Success(ArrayValue(e, c.value));
    } else {
      assert ConvertArray(all, e, Some(text)) == Failure(c.error);
    }
  }

  /**
   * Piece `k` is the first that does not give a fitting element, and
   * `error` is what it throws: its own conversion error, or the
   * InvalidCastException of a refused store.
   */
  predicate FailsAt(all: seq<Converter>, e: ClrType, pieces: seq<string>, k: int, error: Exception)
  {
    && 0 <= k < |pieces|
    && (forall j :: 0 <= j < k ==> Fits(all, e, pieces[j]))
    && (|| Convert(all, e, Some(pieces[k])) == Failure(error)
        || (Convert(all, e, Some(pieces[k])).Success? && !Accepts(e, Convert(all, e, Some(pieces[k])).value) && error == ArrayStoreError))
  }

  /** A failing conversion of any other text fails with the error of the first piece that does not give a fitting element. */
  lemma ConvertArrayFailure(all: seq<Converter>, e: ClrType, text: string)
    requires text != NullString && !EqualsIgnoreCase(text, EmptyString)
    requires ConvertArray(all, e, Some(text)).Failure?
    ensures exists k :: FailsAt(all, e, Split(text, ','), k, ConvertArray(all, e, Some(text)).error)
  {
    var pieces := Split(text, ',');
    var c := ConvertPieces(all, e, pieces);
    assert ConvertArray(all, e, Some(text)) == Failure(c.error);
    var k :| 0 <= k < |pieces| && ConvertElement(all, e, pieces[k]) == Failure(c.error) &&
      (forall j :: 0 <= j < k ==> ConvertElement(all, e, pieces[j]).Success?);
    forall j | 0 <= j < k
      ensures Fits(all, e, pieces[j])
    {
      ElementFits(all, e, pieces[j]);
    }
    ElementFits(all, e, pieces[k]);
    assert FailsAt(all, e, pieces, k, c.error);
  }

  /** A piece converts, and the value it converts to fits an array of `e`. */
  predicate Fits(all: seq<Converter>, e: ClrType, piece: string)
  {
    Convert(all, e, Some(piece)).Success? && Accepts(e, Convert(all, e, Some(piece)).value)
  }

  /** An element succeeds exactly when its piece converts to a value that fits, and is then that value. */
  lemma ElementFits(all: seq<Converter>, e: ClrType, piece: string)
    ensures var c, r := Convert(all, e, Some(piece)), ConvertElement(all, e, piece);
      && (r.Success? <==> c.Success? && Accepts(e, c.value))
      && (r.Success? ==> r.value == c.value)
      && (r.Failure? ==> r.error == (if c.Failure? then c.error else ArrayStoreError))
  {
  }

  lemma NullEmptyPieces(text: string)
    requires text == NullString + "," + EmptyString
    ensures Split(text, ',') == [NullString, EmptyString]
    ensures text != NullString && !EqualsIgnoreCase(text, EmptyString)
  {
    assert text == NullString + [','] + EmptyString;
    SplitWithout(NullString, ',');
    SplitWithout(EmptyString, ',');
    SplitAt(NullString, EmptyString, ',');
    assert |ToUpper(text)| != |ToUpper(EmptyString)|;
  }

  lemma NullEmptyElements(descriptors: TypeDescriptors, pieces: seq<string>)
    requires pieces == [NullString, EmptyString]
    ensures ConvertPieces(Builtins(descriptors), StringType, pieces) == Success([NullValue, StringValue("")])
  {
    StringFamily(descriptors, Some(NullString));
    StringFamily(descriptors, Some(EmptyString));
    var all := Builtins(descriptors);
    var r := ConvertPieces(all, StringType, pieces);
    assert Convert(all, StringType, Some(pieces[0])) == Success(NullValue);
    assert Convert(all, StringType, Some(pieces[1])) == Success(StringValue(""));
    assert r.Success?;
    assert r.value == [NullValue, StringValue("")];
  }

  /** The test "NULL,EMPTY" as a string array: a null element, then an empty string. */
  lemma NullAndEmptyStringArray(descriptors: TypeDescriptors)
    ensures Convert(Builtins(descriptors), ArrayType(StringType), Some(NullString + "," + EmptyString)) ==
      Success(ArrayValue(StringType, [NullValue, StringValue("")]))
  {
    var all := Builtins(descriptors);
    var text := NullString + "," + EmptyString;
    NullEmptyPieces(text);
    StringFamily(descriptors, Some(NullString));
    BuiltinsHaveConverter(descriptors, StringType);
    ArrayFamilyPicked(descriptors, ArrayType(StringType), Some(text));
    NullEmptyElements(descriptors, Split(text, ','));
  }

  /** "a" as a List<string>: the array family builds a string[] holding "a". */
  lemma OneStringList(descriptors: TypeDescriptors, text: string)
    requires text == "a"
    ensures var list := EnumerableType("System.Collections.Generic.List`1", StringType);
      && HasConverter(Builtins(descriptors), list)
      && Convert(Builtins(descriptors), list, Some(text)) == Success(ArrayValue(StringType, [StringValue(text)]))
  {
    var all := Builtins(descriptors);
    var list := EnumerableType("System.Collections.Generic.List`1", StringType);
    BuiltinsHaveConverter(descriptors, StringType);
    ArrayFamilyPicked(descriptors, list, Some(text));
    StringFamily(descriptors, Some(text));
    SplitWithout(text, ',');
    assert |ToUpper(text)| != |ToUpper(EmptyString)|;
    assert text != EmptyString && text != NullString;
    var pieces := [text];
    assert ConvertElement(all, StringType, pieces[0]) == Success(StringValue(text));
    var elements := ConvertPieces(all, StringType, pieces);
    assert elements.Success? && |elements.value| == 1 && elements.value[0] == StringValue(text);
    assert elements.value == [StringValue(text)];
  }

  /**
   * An array whose element type is a List<T> cannot take the T[] its
   * element converter builds: "a" as a List<string>[] throws Array.SetValue's
   * InvalidCastException.
   */
  lemma ListElementIsRefused(descriptors: TypeDescriptors, text: string)
    requires text == "a"
    ensures var list := EnumerableType("System.Collections.Generic.List`1", StringType);
      Convert(Builtins(descriptors), ArrayType(list), Some(text)) == Failure(ArrayStoreError)
  {
    var all := Builtins(descriptors);
    var list := EnumerableType("System.Collections.Generic.List`1", StringType);
    OneStringList(descriptors, text);
    ArrayFamilyPicked(descriptors, ArrayType(list), Some(text));
    SplitWithout(text, ',');
    assert |ToUpper(text)| != |ToUpper(EmptyString)|;
    assert !Accepts(list, ArrayValue(StringType, [StringValue(text)]));
    var pieces := [text];
    assert ConvertElement(all, list, pieces[0]) == Failure(ArrayStoreError);
    assert ConvertPieces(all, list, pieces) == Failure(ArrayStoreError);
  }

  /** A type no converter matches throws InvalidOperationException, naming the type. */
  lemma UnsupportedType(descriptors: TypeDescriptors, s: Option<string>)
    requires !descriptors.canConvertFromString(OtherType("System.Object"))
    ensures Convert(Builtins(descriptors), OtherType("System.Object"), s) ==
      Failure(Exception(InvalidOperationExceptionType, "Unable to find a converter implementation for System.Object"))
  {
    BuiltinsHaveConverter(descriptors, OtherType("System.Object"));
    assert !HasConverter(Builtins(descriptors), OtherType("System.Object"));
    assert FullName(OtherType("System.Object")) == "System.Object";
    assert "Unable to find a converter implementation for " + "System.Object" ==
      "Unable to find a converter implementation for System.Object";
    assert NoConverterError(OtherType("System.Object")) ==
      Exception(InvalidOperationExceptionType, "Unable to find a converter implementation for System.Object");
  }

  /** A converter registered in front wins for every type it matches. */
  lemma RegisteredConverterWins(all: seq<Converter>, converter: Converter, t: ClrType, s: Option<string>)
    requires converter.Custom? && converter.matches(t)
    ensures FindConverter([converter] + all, t) == Some(0)
    ensures Convert([converter] + all, t, s) == converter.convert(t, s)
  {
    assert Matches([converter] + all, ([converter] + all)[0], t);
  }

  /** An ObjectConverter: its converter list, built-ins last. */
  class ObjectConverter {
    var converters: seq<Converter>

    constructor(descriptors: TypeDescriptors)
      ensures converters == Builtins(descriptors)
    {
      converters := Builtins(descriptors);
    }

    predicate HasTypeConverter(t: ClrType)
      reads this
    {
      HasConverter(converters, t)
    }

    /** FromString: the conversion FindConverter picks, with the array loop run in place. */
    method FromString(stringValue: Option<string>, t: ClrType) returns (r: Result<Value, Exception>)
      ensures r == Convert(converters, t, stringValue)
    {
      match FindConverter(converters, t)
      case None =>
        r := Failure(NoConverterError(t));
      case Some(i) =>
        var c := converters[i];
        if c.ArrayConverter? && stringValue.Some? && stringValue.value != NullString &&
           !EqualsIgnoreCase(stringValue.value, EmptyString) {
          var e := ElementType(t);
          var items := FillArray(converters, e, Split(stringValue.value, ','));
          r := if items.Success? then Success(ArrayValue(e, items.value)) else Failure(items.error);
          assert Apply(converters, c, t, stringValue) == ConvertArray(converters, e, stringValue);
        } else {
          r := Apply(converters, c, t, stringValue);
        }
    }

    /** RegisterConverter: the new converter goes in front of all others. */
    method RegisterConverter(converter: Converter)
      modifies this
      ensures converters == [converter] + old(converters)
    {
      converters := [converter] + converters;
    }
  }
}
