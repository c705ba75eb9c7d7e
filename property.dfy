/**
 * Property: what the settings library knows of one writable property of a
 * settings class — the name of the type declaring it, its name, its type,
 * whether it is optional, and how a value is stored into an object.
 */
module Properties {
  import opened Wrappers
  import opened Clr
  import opened Converters

  /** The reflection data Property.Create reads from a PropertyInfo. */
  datatype PropertyInfo = PropertyInfo(
    declaringTypeName: Option<string>,
    name: string,
    propertyType: ClrType,
    hasOptionalSetting: bool)

  /** The injected setter: the NoOp of a null property, or PropertyInfo.SetValue of one property of the given type. */
  datatype Setter = NoOp | SetsProperty(propertyName: string, propertyType: ClrType)

  datatype Property = Property(
    declaringTypeName: Option<string>,
    name: Option<string>,
    propertyType: Option<ClrType>,
    isOptional: bool,
    setter: Setter)

  /** An instance of a settings class: its runtime type, its public writable properties and their current values. */
  class SettingsObject {
    const runtimeType: ClrType
    const writableProperties: seq<PropertyInfo>
    var values: map<string, Value>

    constructor(runtimeType: ClrType, writableProperties: seq<PropertyInfo>, values: map<string, Value>)
      ensures this.runtimeType == runtimeType
      ensures this.writableProperties == writableProperties
      ensures this.values == values
    {
      this.runtimeType := runtimeType;
      this.writableProperties := writableProperties;
      this.values := values;
    }
  }

  /** Property.CreateNull: the given names and type, never optional, and a setter that does nothing. */
  function CreateNull(declaringTypeName: Option<string>, name: Option<string>, propertyType: Option<ClrType>): (p: Property)
    ensures !p.isOptional && p.setter == NoOp
    ensures p.declaringTypeName == declaringTypeName && p.name == name && p.propertyType == propertyType
  {
    Property(declaringTypeName, name, propertyType, false, NoOp)
  }

  /**
   * Property.Create: declaring type name, name and type copied from the
   * reflection data; optional exactly when the OptionalSetting attribute is
   * present; the setter stores into that property.
   */
  function Create(info: PropertyInfo): (p: Property)
    ensures p.declaringTypeName == info.declaringTypeName
    ensures p.name == Some(info.name) && p.propertyType == Some(info.propertyType)
    ensures p.isOptional <==> info.hasOptionalSetting
    ensures p.setter == SetsProperty(info.name, info.propertyType)
  {
    Property(info.declaringTypeName, Some(info.name), Some(info.propertyType), info.hasOptionalSetting,
             SetsProperty(info.name, info.propertyType))
  }

  /** Property.ToString: "{DeclaringTypeName}.{Name}", a "?" when optional, then ":" and the type's full name; nulls print as nothing. */
  function ToString(p: Property): string
  {
    OrEmpty(p.declaringTypeName) + "." + OrEmpty(p.name) + (if p.isOptional then "?" else "") + ":" +
    (match p.propertyType case Some(t) => FullName(t) case None => "")
  }

  /** The rendering splits into its parts: the declaring type before the first '.', and the type name after the only ':' when the names hold neither. */
  lemma {:induction false} ToStringParts(p: Property)
    requires '.' !in OrEmpty(p.declaringTypeName) && ':' !in OrEmpty(p.declaringTypeName) && ':' !in OrEmpty(p.name)
    ensures var s := ToString(p); var d := OrEmpty(p.declaringTypeName);
      var head := d + "." + OrEmpty(p.name) + (if p.isOptional then "?" else "");
      && s[..|d|] == d && s[|d|] == '.'
      && |s| > |head| && s[..|head|] == head && s[|head|] == ':'
      && ((p.isOptional && |head| > 0 && s[|head| - 1] == '?') || !p.isOptional)
  {
    var s := ToString(p);
    var d := OrEmpty(p.declaringTypeName);
    var head := d + "." + OrEmpty(p.name) + (if p.isOptional then "?" else "");
    var tail := match p.propertyType case Some(t) => FullName(t) case None => "";
    assert s == head + ":" + tail;
    assert s[..|head|] == head;
    assert head[..|d|] == d;
  }

  /** An all-null property renders as ".:". */
  lemma NullPropertyString()
    ensures ToString(CreateNull(None, None, None)) == ".:"
  {
    assert OrEmpty(None) == "";
  }

  /** The test's DummyClass.DummyProperty: a string property without the attribute. */
  lemma CreatedPropertyString()
    ensures ToString(Create(PropertyInfo(Some("DummyClass"), "DummyProperty", StringType, false))) ==
      "DummyClass.DummyProperty:System.String"
  {
  }

  /** The test's optional boolean property. */
  lemma OptionalPropertyString()
    ensures ToString(Create(PropertyInfo(Some("DummyClass"), "DummyOptionalProperty", OtherType("System.Boolean"), true))) ==
      "DummyClass.DummyOptionalProperty?:System.Boolean"
  {
    var built := "DummyClass" + "." + "DummyOptionalProperty" + "?" + ":" + "System.Boolean";
    var whole := "DummyClass.DummyOptionalProperty?:System.Boolean";
    assert forall i :: 0 <= i < |whole| ==> whole[i] == built[i];
  }

  /** The runtime type of a value SetValue can refuse. */
  function ValueTypeName(value: Value): string
  {
    match value
    case ArrayValue(e, _) => FullName(ArrayType(e))
    case Boxed(t, _) => FullName(t)
    case StringValue(_) => FullName(StringType)
    case NullValue => ""
  }

  /** The ArgumentException SetValue throws for a value the property cannot hold. */
  function SetValueError(t: ClrType, value: Value): Exception
  {
    Exception(ArgumentExceptionType, "Object of type '" + ValueTypeName(value) + "' cannot be converted to type '" + FullName(t) + "'.")
  }

  /** An array is refused by exactly the enumerable properties whose generic type it does not implement. */
  lemma ArrayIntoEnumerable(definition: string, e: ClrType, items: seq<Value>)
    ensures Accepts(EnumerableType(definition, e), ArrayValue(e, items)) <==> definition in ArrayInterfaces
  {
  }

  /** So a List<T> property refuses the T[] the array family builds. */
  lemma ArrayIntoList(e: ClrType, items: seq<Value>)
    ensures !Accepts(EnumerableType("System.Collections.Generic.List`1", e), ArrayValue(e, items))
  {
    ArrayIntoEnumerable("System.Collections.Generic.List`1", e, items);
  }

  /**
   * Property.SetValue: runs the injected setter on `obj`. A null property's
   * setter changes nothing. A created property's stores `value` under its
   * name and leaves the other properties alone, or throws SetValue's
   * ArgumentException and changes nothing when the property cannot hold it.
   */
  method SetValue(p: Property, obj: SettingsObject, value: Value) returns (thrown: Option<Exception>)
    modifies obj
    ensures p.setter.NoOp? ==> thrown.None? && obj.values == old(obj.values)
    ensures p.setter.SetsProperty? && Accepts(p.setter.propertyType, value) ==>
      thrown.None? && obj.values == old(obj.values)[p.setter.propertyName := value]
    ensures p.setter.SetsProperty? && !Accepts(p.setter.propertyType, value) ==>
      thrown == Some(SetValueError(p.setter.propertyType, value)) && obj.values == old(obj.values)
  {
    match p.setter
    case NoOp =>
      thrown := None;
    case SetsProperty(propertyName, propertyType) =>
      if !Accepts(propertyType, value) {
        return Some(SetValueError(propertyType, value));
      }
      obj.values := obj.values[propertyName := value];
      thrown := None;
  }
}
