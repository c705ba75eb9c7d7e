/**
 * NamingConvention: the two ready-made conventions. Default looks a property
 * up as "{DeclaringTypeName}.{Name}"; DefaultEnvironment(prefix) as the
 * prefix and the property name in upper case with underscores, the form of
 * environment variable names.
 */
module NamingConventions {
  import opened Wrappers
  import opened Text
  import opened Properties
  import opened ConventionBuilder

  /** NamingConvention.Default: what a fresh builder builds. */
  method Default() returns (convention: NamingConvention)
    ensures convention == NamingConvention(DeclaringTypeAndName, ".")
    ensures forall p :: convention.GetKey(p) == OrEmpty(p.declaringTypeName) + "." + OrEmpty(p.name)
  {
    var builder := new NamingConventionBuilder();
    convention := builder.Build();
  }

  /** The key DefaultEnvironment promises: prefix, "_" and property name, separated at word boundaries and upper-cased. */
  function EnvironmentKey(prefix: string, name: string): string
  {
    ToUpper(SeparateWords(prefix + "_" + name, "_"))
  }

  /**
   * NamingConvention.DefaultEnvironment(applicationPrefix): the property
   * name, behind the prefix, then PascalCase to upper case with underscores.
   * A null prefix concatenates as nothing.
   */
  method DefaultEnvironment(applicationPrefix: Option<string>) returns (convention: NamingConvention)
    ensures forall p :: convention.GetKey(p) == EnvironmentKey(OrEmpty(applicationPrefix), OrEmpty(p.name))
  {
    var builder := new NamingConventionBuilder();
    var byName := (p: Property) => OrEmpty(p.name);
    var prefix := OrEmpty(applicationPrefix);
    builder.WithCustom(byName);
    builder.WithPrefix(prefix);
    builder.PascalCaseToUpperCaseWithUnderscores();
    convention := builder.Build();
    var inner := Prefixed(LiteralPrefix(prefix), CustomKey(byName));
    assert convention.converter == Uppercased(SeparatedWords(inner)) && convention.separator == "_";
    forall p ensures convention.GetKey(p) == EnvironmentKey(prefix, OrEmpty(p.name)) {
      var name := OrEmpty(p.name);
      assert KeyOf(CustomKey(byName), "_", p) == name;
      assert KeyOf(inner, "_", p) == prefix + "_" + name;
      assert KeyOf(SeparatedWords(inner), "_", p) == ReplaceWordBoundaries(prefix + "_" + name, "_");
      assert convention.GetKey(p) == ToUpper(ReplaceWordBoundaries(prefix + "_" + name, "_"));
      ReplaceWordBoundariesSeparatesAll(prefix + "_" + name, "_");
    }
  }

  /** The underscore after the prefix is never part of a boundary, so prefix and name are separated independently. */
  lemma SeparatedAroundPrefix(prefix: string, name: string)
    ensures SeparateWords(prefix + "_" + name, "_") == SeparateWords(prefix, "_") + "_" + SeparateWords(name, "_")
  {
    var u := "_";
    if prefix != [] && name != [] {
      SeparateAroundUnderscore(prefix, name, "_");
    } else if prefix != [] {
      SeparateWordsAppend(prefix, u, "_");
      assert prefix + "_" + name == prefix + u;
    } else if name != [] {
      SeparateWordsAppend(u, name, "_");
      assert prefix + "_" + name == u + name;
    } else {
      assert prefix + "_" + name == u;
    }
  }

  /** Hence prefix and name are also upper-cased independently. */
  lemma EnvironmentKeyParts(prefix: string, name: string)
    ensures EnvironmentKey(prefix, name) == ToUpper(SeparateWords(prefix, "_")) + "_" + ToUpper(SeparateWords(name, "_"))
  {
    SeparatedAroundPrefix(prefix, name);
    var left, right := SeparateWords(prefix, "_"), SeparateWords(name, "_");
    ToUpperAppend(left + "_", right);
    ToUpperAppend(left, "_");
  }

  /** A prefix without a lower-to-upper boundary appears upper-cased, then "_", at the start of every key. */
  lemma EnvironmentKeyStartsWithPrefix(prefix: string, name: string)
    requires HasNoBoundary(prefix)
    ensures var key := EnvironmentKey(prefix, name);
      |key| > |prefix| && key[..|prefix| + 1] == ToUpper(prefix) + "_"
  {
    EnvironmentKeyParts(prefix, name);
    SeparateWordsWithoutBoundary(prefix, "_");
    var key := EnvironmentKey(prefix, name);
    assert key == (ToUpper(prefix) + "_") + ToUpper(SeparateWords(name, "_"));
  }

  /** Environment keys hold no lower-case ASCII letter. */
  lemma EnvironmentKeyHasNoLowerCase(prefix: string, name: string)
    ensures var key := EnvironmentKey(prefix, name);
      forall i :: 0 <= i < |key| ==> !IsLowerAscii(key[i])
  {
    ToUpperHasNoLowerCase(SeparateWords(prefix + "_" + name, "_"));
  }

  lemma MyStringSeparated(name: string)
    requires name == "MyString"
    ensures SeparateWords(name, "_") == "My_String"
  {
    var my, text := "My", "String";
    assert IsCapitalized(my) && IsCapitalized(text);
    assert name == my + text;
    SeparateTwoWords(my, text, "_");
  }

  lemma MyStringUpperCased(separated: string)
    requires separated == "My_String"
    ensures ToUpper(separated) == "MY_STRING"
  {
  }

  lemma AppUpperCased(prefix: string)
    requires prefix == "APP"
    ensures ToUpper(SeparateWords(prefix, "_")) == "APP"
  {
    assert HasNoBoundary(prefix);
    SeparateWordsWithoutBoundary(prefix, "_");
  }

  /** The provider test's key: prefix "APP" and property MyString give "APP_MY_STRING". */
  lemma AppMyStringKey(prefix: string, name: string)
    requires prefix == "APP" && name == "MyString"
    ensures EnvironmentKey(prefix, name) == "APP_MY_STRING"
  {
    EnvironmentKeyParts(prefix, name);
    AppUpperCased(prefix);
    MyStringSeparated(name);
    MyStringUpperCased(SeparateWords(name, "_"));
    var app, my := "APP", "MY_STRING";
    assert app + "_" + my == "APP_MY_STRING";
  }
}
