/**
 * NamingConventionBuilder: builds the function that derives a configuration
 * key from a property. Every decoration wraps the converter built so far; the
 * separator is a field read when a key is computed, so a separator set late
 * also reaches the decorations added before it.
 */
module ConventionBuilder {
  import opened Wrappers
  import opened Text
  import opened Properties

  /** The argument of WithPrefix: a fixed text (followed by the separator) or a function of the separator. */
  datatype Prefix = LiteralPrefix(text: string) | ComputedPrefix(compute: string -> string)

  /**
   * The builder's `_converter` delegate, written out as the chain of
   * decorations that produced it: the initial "{DeclaringTypeName}{sep}{Name}",
   * a custom function, or a prefix, word separation or upper-casing applied
   * to the previous converter.
   */
  datatype KeyConverter =
    | DeclaringTypeAndName
    | CustomKey(key: Property -> string)
    | Prefixed(prefix: Prefix, inner: KeyConverter)
    | SeparatedWords(inner: KeyConverter)
    | Uppercased(inner: KeyConverter)

  function PrefixText(prefix: Prefix, separator: string): string
  {
    match prefix
    case LiteralPrefix(text) => text + separator
    case ComputedPrefix(compute) => compute(separator)
  }

  /** What the converter delegate returns for `p` when `_separator()` gives `separator`. */
  function KeyOf(converter: KeyConverter, separator: string, p: Property): string
  {
    match converter
    case DeclaringTypeAndName => OrEmpty(p.declaringTypeName) + separator + OrEmpty(p.name)
    case CustomKey(key) => key(p)
    case Prefixed(prefix, inner) => PrefixText(prefix, separator) + KeyOf(inner, separator, p)
    case SeparatedWords(inner) => ReplaceWordBoundaries(KeyOf(inner, separator, p), separator)
    case Uppercased(inner) => ToUpper(KeyOf(inner, separator, p))
  }

  /** The `lc` group of the pattern: a lower-case letter or a digit. */
  predicate IsWordEnd(c: char) { IsLowerAscii(c) || IsDigit(c) }

  /** A boundary of the pattern "([a-z0-9])([A-Z])". */
  predicate IsBoundary(a: char, b: char) { IsWordEnd(a) && IsUpperAscii(b) }

  /**
   * Regex.Replace with "(?<lc>[a-z0-9])(?<uc>[A-Z])" and replacement
   * lc + separator + uc: the input is scanned left to right and each match
   * consumes both of its characters.
   */
  function ReplaceWordBoundaries(s: string, separator: string): string
  {
    if |s| < 2 then s
    else if IsBoundary(s[0], s[1]) then [s[0]] + separator + [s[1]] + ReplaceWordBoundaries(s[2..], separator)
    else [s[0]] + ReplaceWordBoundaries(s[1..], separator)
  }

  /** The reference definition: the separator goes between every adjacent boundary pair. */
  function SeparateWords(s: string, separator: string): (r: string)
    ensures |s| <= |r|
  {
    if |s| < 2 then s
    else [s[0]] + (if IsBoundary(s[0], s[1]) then separator else "") + SeparateWords(s[1..], separator)
  }

  /** A match consumes an upper-case letter, which can never start the next match, so the regex scan separates every boundary. */
  lemma {:induction false} ReplaceWordBoundariesSeparatesAll(s: string, separator: string)
    ensures ReplaceWordBoundaries(s, separator) == SeparateWords(s, separator)
    decreases |s|
  {
    if |s| >= 2 {
      if IsBoundary(s[0], s[1]) {
        ReplaceWordBoundariesSeparatesAll(s[2..], separator);
        assert s[1..][1..] == s[2..];
        if |s| >= 3 {
          assert !IsBoundary(s[1], s[2]);
        }
      } else {
        ReplaceWordBoundariesSeparatesAll(s[1..], separator);
      }
    }
  }

  /** Word separation works piece by piece: the separator at the join exactly when the join is a boundary. */
  lemma {:induction false} SeparateWordsAppend(a: string, b: string, separator: string)
    requires a != [] && b != []
    ensures SeparateWords(a + b, separator) ==
      SeparateWords(a, separator) + (if IsBoundary(a[|a| - 1], b[0]) then separator else "") + SeparateWords(b, separator)
    decreases |a|
  {
    var ab := a + b;
    assert ab[0] == a[0];
    if |a| == 1 {
      assert ab[1..] == b && ab[1] == b[0];
    } else {
      var tail := a[1..];
      assert ab[1..] == tail + b && ab[1] == a[1] && tail[0] == a[1];
      SeparateWordsAppend(tail, b, separator);
      var first := [a[0]] + (if IsBoundary(a[0], a[1]) then separator else "");
      var join := if IsBoundary(a[|a| - 1], b[0]) then separator else "";
      assert tail[|tail| - 1] == a[|a| - 1];
      assert SeparateWords(ab, separator) == first + (SeparateWords(tail, separator) + join + SeparateWords(b, separator));
      assert SeparateWords(a, separator) == first + SeparateWords(tail, separator);
      AppendAssociates(first, SeparateWords(tail, separator), join);
      AppendAssociates(first, SeparateWords(tail, separator) + join, SeparateWords(b, separator));
      AppendAssociates(SeparateWords(tail, separator), join, SeparateWords(b, separator));
    }
  }

  /** No two adjacent characters of `s` form a boundary. */
  predicate HasNoBoundary(s: string)
  {
    forall i :: 0 <= i < |s| - 1 ==> !IsBoundary(s[i], s[i + 1])
  }

  /** A string without boundaries is left as it is. */
  lemma {:induction false} SeparateWordsWithoutBoundary(s: string, separator: string)
    requires HasNoBoundary(s)
    ensures SeparateWords(s, separator) == s
    decreases |s|
  {
    if |s| >= 2 {
      SeparateWordsWithoutBoundary(s[1..], separator);
    }
  }

  /** Removing the separator character again gives back the original string, when it did not hold that character. */
  lemma {:induction false} SeparateWordsRemoval(s: string, c: char)
    requires c !in s
    ensures Remove(SeparateWords(s, [c]), c) == s
    decreases |s|
  {
    if |s| >= 2 {
      SeparateWordsRemoval(s[1..], c);
      var sep := if IsBoundary(s[0], s[1]) then [c] else "";
      RemoveAppend([s[0]] + sep, SeparateWords(s[1..], [c]), c);
      RemoveAppend([s[0]], sep, c);
      assert [s[0]] + s[1..] == s;
    } else if |s| == 1 {
      assert Remove(s, c) == [s[0]] + Remove([], c);
    }
  }

  /** After separation with a separator of neither kind of letter, no boundary is left. */
  lemma {:induction false} SeparateWordsLeavesNoBoundary(s: string, separator: string)
    requires separator != []
    requires forall i :: 0 <= i < |separator| ==> !IsWordEnd(separator[i]) && !IsUpperAscii(separator[i])
    ensures HasNoBoundary(SeparateWords(s, separator))
    decreases |s|
  {
    if |s| >= 2 {
      SeparateWordsLeavesNoBoundary(s[1..], separator);
      var rest := SeparateWords(s[1..], separator);
      assert rest[0] == s[1];
      var r := SeparateWords(s, separator);
      forall i | 0 <= i < |r| - 1 ensures !IsBoundary(r[i], r[i + 1]) {
        if IsBoundary(s[0], s[1]) {
          assert r == [s[0]] + separator + rest;
          if i == 0 {
            assert r[1] == separator[0];
          } else if i <= |separator| {
            assert r[i] == separator[i - 1];
          } else {
            var k := i - 1 - |separator|;
            assert r[i] == rest[k] && r[i + 1] == rest[k + 1];
            assert !IsBoundary(rest[k], rest[k + 1]);
          }
        } else {
          assert r == [s[0]] + rest;
          if i > 0 {
            assert r[i] == rest[i - 1] && r[i + 1] == rest[i];
            assert !IsBoundary(rest[i - 1], rest[i]);
          }
        }
      }
    }
  }

  /** `s` with every `c` taken out. */
  function Remove(s: string, c: char): (r: string)
    ensures c !in r
  {
    if s == [] then [] else (if s[0] == c then [] else [s[0]]) + Remove(s[1..], c)
  }

  lemma {:induction false} RemoveAppend(a: string, b: string, c: char)
    ensures Remove(a + b, c) == Remove(a, c) + Remove(b, c)
    decreases |a|
  {
    if a != [] {
      RemoveAppend(a[1..], b, c);
      assert (a + b)[1..] == a[1..] + b;
    } else {
      assert a + b == b;
    }
  }

  /** NamingConventionImpl: the converter and the separator the keys are computed with. */
  datatype NamingConvention = NamingConvention(converter: KeyConverter, separator: string)
  {
    function GetKey(p: Property): string
    {
      KeyOf(converter, separator, p)
    }
  }

  /** The steps an `Action<INamingConventionBuilder>` performs on a builder, in order. */
  datatype BuilderStep =
    | WithCustomStep(key: Property -> string)
    | WithPrefixStep(prefix: Prefix)
    | PascalCaseStep

  class NamingConventionBuilder {
    var separator: string
    var converter: KeyConverter

    /** A new builder: separator "." and the "{DeclaringTypeName}{sep}{Name}" converter. */
    constructor()
      ensures separator == "." && converter == DeclaringTypeAndName
    {
      separator := ".";
      converter := DeclaringTypeAndName;
    }

    /** WithCustom: the whole converter is replaced; earlier decorations are dropped. */
    method WithCustom(key: Property -> string)
      modifies this
      ensures converter == CustomKey(key) && separator == old(separator)
    {
      converter := CustomKey(key);
    }

    /** WithPrefix(string): the prefix and the separator go in front of the previous key. */
    method WithPrefix(prefix: string)
      modifies this
      ensures converter == Prefixed(LiteralPrefix(prefix), old(converter)) && separator == old(separator)
    {
      WithPrefixFrom(LiteralPrefix(prefix));
    }

    /** WithPrefix(Func<string, string>): the prefix function of the separator goes in front of the previous key. */
    method WithPrefixFrom(prefix: Prefix)
      modifies this
      ensures converter == Prefixed(prefix, old(converter)) && separator == old(separator)
    {
      converter := Prefixed(prefix, converter);
    }

    /** PascalCaseToUpperCaseWithUnderscores: separator "_", then word separation, then upper-casing of the previous key. */
    method PascalCaseToUpperCaseWithUnderscores()
      modifies this
      ensures separator == "_" && converter == Uppercased(SeparatedWords(old(converter)))
    {
      separator := "_";
      converter := SeparatedWords(converter);
      converter := Uppercased(converter);
    }

    /** Runs the steps of a convention builder action. */
    method Apply(steps: seq<BuilderStep>)
      modifies this
      ensures (separator, converter) == Steps(steps, old(separator), old(converter))
    {
      for i := 0 to |steps|
        invariant (separator, converter) == Steps(steps[..i], old(separator), old(converter))
      {
        StepsAppend(steps[..i], steps[i], old(separator), old(converter));
        assert steps[..i + 1] == steps[..i] + [steps[i]];
        match steps[i]
        case WithCustomStep(key) => WithCustom(key);
        case WithPrefixStep(prefix) => WithPrefixFrom(prefix);
        case PascalCaseStep => PascalCaseToUpperCaseWithUnderscores();
      }
      assert steps[..|steps|] == steps;
    }

    /** Build: a convention computing keys with the current converter and separator. */
    method Build() returns (convention: NamingConvention)
      ensures convention.converter == converter && convention.separator == separator
      ensures forall p :: convention.GetKey(p) == KeyOf(converter, separator, p)
    {
      convention := NamingConvention(converter, separator);
    }
  }

  /** The builder state after one step. */
  function Step(step: BuilderStep, separator: string, converter: KeyConverter): (string, KeyConverter)
  {
    match step
    case WithCustomStep(key) => (separator, CustomKey(key))
    case WithPrefixStep(prefix) => (separator, Prefixed(prefix, converter))
    case PascalCaseStep => ("_", Uppercased(SeparatedWords(converter)))
  }

  /** The builder state after a sequence of steps, applied first to last. */
  function Steps(steps: seq<BuilderStep>, separator: string, converter: KeyConverter): (string, KeyConverter)
    decreases |steps|
  {
    if steps == [] then (separator, converter)
    else
      var next := Step(steps[|steps| - 1], Steps(steps[..|steps| - 1], separator, converter).0,
                       Steps(steps[..|steps| - 1], separator, converter).1);
      next
  }

  lemma StepsAppend(steps: seq<BuilderStep>, step: BuilderStep, separator: string, converter: KeyConverter)
    ensures Steps(steps + [step], separator, converter) ==
      Step(step, Steps(steps, separator, converter).0, Steps(steps, separator, converter).1)
  {
    assert (steps + [step])[..|steps|] == steps;
  }

  /** The property the builder tests use: declared by DummyClass, named DummyProperty. */
  function DummyProperty(): Property
  {
    CreateNull(Some("DummyClass"), Some("DummyProperty"), None)
  }

  /** A fresh builder gives "{DeclaringTypeName}.{Name}". */
  method FreshBuilderKey() returns (key: string)
    ensures key == "DummyClass.DummyProperty"
  {
    var builder := new NamingConventionBuilder();
    var convention := builder.Build();
    key := convention.GetKey(DummyProperty());
  }

  /** WithPrefix("Prefix") puts the prefix and the "." separator in front. */
  method PrefixKey() returns (key: string)
    ensures key == "Prefix.DummyClass.DummyProperty"
  {
    var builder := new NamingConventionBuilder();
    builder.WithPrefix("Prefix");
    var convention := builder.Build();
    key := convention.GetKey(DummyProperty());
    assert KeyOf(DeclaringTypeAndName, ".", DummyProperty()) == "DummyClass" + "." + "DummyProperty";
    assert key == "Prefix" + "." + ("DummyClass" + "." + "DummyProperty");
  }

  /** A prefix function that ignores the separator supplies its own. */
  method ComputedPrefixKey() returns (key: string)
    ensures key == "Prefix:DummyClass.DummyProperty"
  {
    var builder := new NamingConventionBuilder();
    builder.WithPrefixFrom(ComputedPrefix(separator => "Prefix:"));
    var convention := builder.Build();
    key := convention.GetKey(DummyProperty());
    assert KeyOf(DeclaringTypeAndName, ".", DummyProperty()) == "DummyClass" + "." + "DummyProperty";
    assert key == "Prefix:" + ("DummyClass" + "." + "DummyProperty");
  }

  /** WithCustom(property => property.Name) gives the bare name. */
  method CustomKeyOfName() returns (key: string)
    ensures key == "DummyProperty"
  {
    var builder := new NamingConventionBuilder();
    builder.WithCustom((p: Property) => OrEmpty(p.name));
    var convention := builder.Build();
    key := convention.GetKey(DummyProperty());
  }

  /** A PascalCase word: an upper-case letter followed by lower-case letters. */
  predicate IsCapitalized(w: string)
  {
    |w| >= 1 && IsUpperAscii(w[0]) && forall i :: 1 <= i < |w| ==> IsLowerAscii(w[i])
  }

  /** Two PascalCase words written together are separated. */
  lemma SeparateTwoWords(a: string, b: string, separator: string)
    requires IsCapitalized(a) && IsCapitalized(b) && |a| >= 2
    ensures SeparateWords(a + b, separator) == a + separator + b
  {
    SeparateWordsWithoutBoundary(a, separator);
    SeparateWordsWithoutBoundary(b, separator);
    SeparateWordsAppend(a, b, separator);
  }

  /** An underscore is on neither side of a boundary, so separation works on each side of it alone. */
  lemma SeparateAroundUnderscore(a: string, b: string, separator: string)
    requires a != [] && b != []
    ensures SeparateWords(a + "_" + b, separator) == SeparateWords(a, separator) + "_" + SeparateWords(b, separator)
  {
    SeparateWordsAppend(a, "_", separator);
    SeparateWordsAppend(a + "_", b, separator);
    assert (a + "_")[|a + "_"| - 1] == '_';
  }

  lemma DummyClassWords(typeName: string)
    requires typeName == "DummyClass"
    ensures SeparateWords(typeName, "_") == "Dummy_Class"
  {
    var dummy, klass := "Dummy", "Class";
    assert IsCapitalized(dummy) && IsCapitalized(klass);
    assert typeName == dummy + klass;
    SeparateTwoWords(dummy, klass, "_");
  }

  lemma DummyPropertyWords(name: string)
    requires name == "DummyProperty"
    ensures SeparateWords(name, "_") == "Dummy_Property"
  {
    var dummy, property := "Dummy", "Property";
    assert IsCapitalized(dummy) && IsCapitalized(property);
    assert name == dummy + property;
    SeparateTwoWords(dummy, property, "_");
  }

  lemma DummyClassSeparated(typeName: string, name: string)
    requires typeName == "DummyClass" && name == "DummyProperty"
    ensures SeparateWords(typeName + "_" + name, "_") == "Dummy_Class_Dummy_Property"
  {
    DummyClassWords(typeName);
    DummyPropertyWords(name);
    SeparateAroundUnderscore(typeName, name, "_");
    var words, left, right := "Dummy_Class", "Dummy_Class_", "Dummy_Property";
    assert words + "_" == left;
    var whole := "Dummy_Class_Dummy_Property";
    assert forall i :: 0 <= i < |whole| ==> whole[i] == (left + right)[i];
  }

  lemma DummyClassUpperCased(separated: string)
    requires separated == "Dummy_Class_Dummy_Property"
    ensures ToUpper(separated) == "DUMMY_CLASS_DUMMY_PROPERTY"
  {
    var upper := "DUMMY_CLASS_DUMMY_PROPERTY";
    assert forall i :: 0 <= i < |upper| ==> upper[i] == ToUpper(separated)[i];
  }


  /** The key the PascalCase test expects, from the scan the regex performs. */
  lemma DummyClassKey(typeName: string, name: string)
    requires typeName == "DummyClass" && name == "DummyProperty"
    ensures ToUpper(ReplaceWordBoundaries(typeName + "_" + name, "_")) == "DUMMY_CLASS_DUMMY_PROPERTY"
  {
    ReplaceWordBoundariesSeparatesAll(typeName + "_" + name, "_");
    DummyClassSeparated(typeName, name);
    DummyClassUpperCased(ReplaceWordBoundaries(typeName + "_" + name, "_"));
  }

  /** PascalCaseToUpperCaseWithUnderscores on a fresh builder: the default converter also uses the late "_". */
  method PascalCaseKey(p: Property) returns (key: string)
    requires p.declaringTypeName == Some("DummyClass") && p.name == Some("DummyProperty")
    ensures key == "DUMMY_CLASS_DUMMY_PROPERTY"
  {
    var builder := new NamingConventionBuilder();
    builder.PascalCaseToUpperCaseWithUnderscores();
    var convention := builder.Build();
    key := convention.GetKey(p);
    var typeName, name := OrEmpty(p.declaringTypeName), OrEmpty(p.name);
    assert convention.converter == Uppercased(SeparatedWords(DeclaringTypeAndName)) && convention.separator == "_";
    assert KeyOf(DeclaringTypeAndName, "_", p) == typeName + "_" + name;
    assert KeyOf(SeparatedWords(DeclaringTypeAndName), "_", p) == ReplaceWordBoundaries(typeName + "_" + name, "_");
    assert key == ToUpper(ReplaceWordBoundaries(typeName + "_" + name, "_"));
    DummyClassKey(typeName, name);
  }

  lemma PrefixWord(prefix: string)
    requires prefix == "prefix"
    ensures SeparateWords(prefix, "_") == prefix
  {
    assert HasNoBoundary(prefix);
    SeparateWordsWithoutBoundary(prefix, "_");
  }

  lemma PrefixSeparated(prefix: string, name: string)
    requires prefix == "prefix" && name == "DummyProperty"
    ensures SeparateWords(prefix + "_" + name, "_") == "prefix_Dummy_Property"
  {
    PrefixWord(prefix);
    DummyPropertyWords(name);
    SeparateAroundUnderscore(prefix, name, "_");
    var left, right := "prefix_", "Dummy_Property";
    assert prefix + "_" == left;
    var whole := "prefix_Dummy_Property";
    assert forall i :: 0 <= i < |whole| ==> whole[i] == (left + right)[i];
  }

  lemma PrefixUpperCased(separated: string)
    requires separated == "prefix_Dummy_Property"
    ensures ToUpper(separated) == "PREFIX_DUMMY_PROPERTY"
  {
    var upper := "PREFIX_DUMMY_PROPERTY";
    assert forall i :: 0 <= i < |upper| ==> upper[i] == ToUpper(separated)[i];
  }


  /** The key the combined test expects, from the scan the regex performs. */
  lemma PrefixKeyOfName(prefix: string, name: string)
    requires prefix == "prefix" && name == "DummyProperty"
    ensures ToUpper(ReplaceWordBoundaries(prefix + "_" + name, "_")) == "PREFIX_DUMMY_PROPERTY"
  {
    ReplaceWordBoundariesSeparatesAll(prefix + "_" + name, "_");
    PrefixSeparated(prefix, name);
    PrefixUpperCased(ReplaceWordBoundaries(prefix + "_" + name, "_"));
  }

  /** Custom name, prefix, then PascalCase: the prefix added before the separator change still gets "_". */
  method CombinedKey(p: Property) returns (key: string)
    requires p.name == Some("DummyProperty")
    ensures key == "PREFIX_DUMMY_PROPERTY"
  {
    var builder := new NamingConventionBuilder();
    var byName := (p: Property) => OrEmpty(p.name);
    builder.WithCustom(byName);
    builder.WithPrefix("prefix");
    builder.PascalCaseToUpperCaseWithUnderscores();
    var convention := builder.Build();
    key := convention.GetKey(p);
    var prefix, name := "prefix", OrEmpty(p.name);
    var inner := Prefixed(LiteralPrefix(prefix), CustomKey(byName));
    assert convention.converter == Uppercased(SeparatedWords(inner)) && convention.separator == "_";
    assert KeyOf(CustomKey(byName), "_", p) == name;
    assert KeyOf(inner, "_", p) == prefix + "_" + name;
    assert KeyOf(SeparatedWords(inner), "_", p) == ReplaceWordBoundaries(prefix + "_" + name, "_");
    assert key == ToUpper(ReplaceWordBoundaries(prefix + "_" + name, "_"));
    PrefixKeyOfName(prefix, name);
  }
}
