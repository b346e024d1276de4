/** `generateClass` (script.js:310-379): the Java text of one class. The annotations of a
    field are first chosen as values of `Annotation` and then printed, so that the
    declarations of a class can be compared with what its header imports. `GenerateClass` is the
    two-loop method of the source, proved to produce `ClassText`. */
module Render {
  import opened Text
  import opened StringOrder
  import opened Schema
  import opened FieldConfig

  /** `javaVersionSelect.value === '17'` selects the Jakarta package, any other value javax. */
  function ValidationPackage(javaVersion: string): string
  {
    if javaVersion == "17" then "jakarta.validation.constraints" else "javax.validation.constraints"
  }

  const JsonPropertyImport := "import com.fasterxml.jackson.annotation.JsonProperty;"
  const JsonAliasImport := "import com.fasterxml.jackson.annotation.JsonAlias;"
  const ListImport := "import java.util.List;"

  /** The four imports every class starts with (script.js:314-319). */
  const BaselineImports: set<string> :=
    {"import lombok.Data;", "import java.io.Serial;", "import java.io.Serializable;", JsonPropertyImport}

  function ConstraintImport(pkg: string, annotation: string): string
  {
    "import " + pkg + "." + annotation + ";"
  }

  /** The types whose length limit is a largest value rather than a size. */
  predicate IsNumericType(t: string)
  {
    t in ["Integer", "Long", "Double", "BigDecimal"]
  }

  /** The import a type from outside `java.lang` needs. */
  function TypeImport(t: string): Option<string>
  {
    if t == "BigDecimal" then Some("import java.math.BigDecimal;")
    else if t == "LocalDate" then Some("import java.time.LocalDate;")
    else if t == "LocalDateTime" then Some("import java.time.LocalDateTime;")
    else if t == "Timestamp" then Some("import java.sql.Timestamp;")
    else None
  }

  function OptionSet(o: Option<string>): set<string>
  {
    if o.Some? then {o.value} else {}
  }

  /** The import a JSON alias asks for (script.js:325-327). */
  function AliasImports(cfg: Config): set<string>
  {
    if cfg.jsonAlias != "" then {JsonAliasImport} else {}
  }

  /** The import a required field asks for (script.js:328-330). */
  function RequiredImports(cfg: Config, pkg: string): set<string>
  {
    if !cfg.required then {}
    else if cfg.typeName == "String" then {ConstraintImport(pkg, "NotBlank")}
    else {ConstraintImport(pkg, "NotNull")}
  }

  /** The import a length limit asks for (script.js:331-336). */
  function LengthImports(cfg: Config, pkg: string): set<string>
  {
    if cfg.maxLength == "" then {}
    else if IsNumericType(cfg.typeName) then {ConstraintImport(pkg, "Max")}
    else {ConstraintImport(pkg, "Size")}
  }

  /** `java.util.List` for a list type (script.js:341). */
  function ListImports(t: string): set<string>
  {
    if IsListType(t) then {ListImport} else {}
  }

  /** Which type the type import of a field is looked up by: the whole declared type, as
      script.js:337-340 does, or the element type of a list type, which is what a
      `List<…>` declaration needs. */
  datatype TypeLookup = WholeType | ElementType

  function LookupType(t: string, lookup: TypeLookup): string
  {
    if lookup == WholeType then t else BaseType(t)
  }

  /** The imports one field adds (script.js:325-341), with the type import looked up as
      `lookup` says; `generateClass` uses `WholeType`. */
  function FieldImports(cfg: Config, pkg: string, lookup: TypeLookup): set<string>
  {
    AliasImports(cfg) + RequiredImports(cfg, pkg) + LengthImports(cfg, pkg)
    + OptionSet(TypeImport(LookupType(cfg.typeName, lookup))) + ListImports(cfg.typeName)
  }

  /** Every field of `fields` has a record under its path. */
  ghost predicate HasConfigs(className: string, fields: seq<FieldDescriptor>, configs: map<string, Config>)
  {
    forall j :: 0 <= j < |fields| ==> Path(className, fields[j].name) in configs
  }

  /** The `imports` set after the first `n` rounds of the first loop. */
  ghost function ImportsOf(className: string, fields: seq<FieldDescriptor>, configs: map<string, Config>, pkg: string,
                          lookup: TypeLookup, n: nat): set<string>
    requires n <= |fields| && HasConfigs(className, fields, configs)
  {
    BaselineImports + UnionUpTo(FieldImportSets(className, fields, configs, pkg, lookup), n)
  }

  // ----- Field annotations -----

  /** One annotation line of a field, or its doc comment, with the record values it is
      printed from. */
  datatype Annotation =
    | Doc(comment: string)
    | JsonProperty(name: string)
    | JsonAlias(aliasText: string)
    | NotBlank(field: string)
    | NotNull(field: string)
    | Max(field: string, maxLength: string)
    | Size(field: string, maxLength: string)

  /** `jsonAlias.split(',').map(a => a.trim())`: empty pieces are kept. */
  function Aliases(jsonAlias: string): (r: seq<string>)
    ensures |r| == Count(jsonAlias, ',') + 1
    ensures forall i :: 0 <= i < |r| ==> ',' !in r[i]
    ensures forall i :: 0 <= i < |r| ==> r[i] == [] || (!IsJsWhitespace(r[i][0]) && !IsJsWhitespace(r[i][|r[i]| - 1]))
    ensures |r| == |Split(jsonAlias, ',')| && forall i :: 0 <= i < |r| ==> r[i] == Trim(Split(jsonAlias, ',')[i])
  {
    var pieces := Split(jsonAlias, ',');
    seq(|pieces|, i requires 0 <= i < |pieces| => Trim(pieces[i]))
  }

  /** Aliases written without surrounding spaces and joined with commas are read back
      one by one, empty ones included. */
  lemma AliasesOfJoined(names: seq<string>)
    requires |names| >= 1
    requires forall i :: 0 <= i < |names| ==> ',' !in names[i]
    requires forall i :: 0 <= i < |names| ==>
               names[i] == [] || (!IsJsWhitespace(names[i][0]) && !IsJsWhitespace(names[i][|names[i]| - 1]))
    ensures Aliases(Join(names, ",")) == names
  {
    SplitJoin(names, ',');
    AliasesOfTrimmed(Join(names, [',']));
  }

  /** When no piece between commas has surrounding spaces, the aliases are the pieces. */
  lemma AliasesOfTrimmed(s: string)
    requires forall i :: 0 <= i < |Split(s, ',')| ==>
               Split(s, ',')[i] == [] || (!IsJsWhitespace(Split(s, ',')[i][0]) && !IsJsWhitespace(Split(s, ',')[i][|Split(s, ',')[i]| - 1]))
    ensures Aliases(s) == Split(s, ',')
  {
    var pieces := Split(s, ',');
    forall i | 0 <= i < |pieces|
      ensures Trim(pieces[i]) == pieces[i]
    {
      TrimOfTrimmed(pieces[i]);
    }
  }

  /** `Math.pow(10, parseInt(maxLength)) - 1` as JavaScript prints it: `NaN` when there is
      no number, the n-digit number of nines for n, a negative fraction below zero for -n. */
  function MaxValueText(maxLength: string): string
  {
    match ParseInt(maxLength)
    case None => "NaN"
    case Some(n) => if n >= 0 then NatToString(Pow10(n) - 1) else "-0." + Repeat('9', -n)
  }

  /** The annotations of a field, in the order script.js:353-372 writes them. */
  function Annotations(name: string, cfg: Config): seq<Annotation>
  {
    DocPart(cfg) + [JsonProperty(name)] + AliasPart(cfg) + RequiredPart(name, cfg) + LengthPart(name, cfg)
  }

  function DocPart(cfg: Config): seq<Annotation>
  {
    if cfg.comment != "" then [Doc(cfg.comment)] else []
  }

  function AliasPart(cfg: Config): seq<Annotation>
  {
    if cfg.jsonAlias != "" then [JsonAlias(cfg.jsonAlias)] else []
  }

  function RequiredPart(name: string, cfg: Config): seq<Annotation>
  {
    if cfg.required then [if cfg.typeName == "String" then NotBlank(name) else NotNull(name)] else []
  }

  function LengthPart(name: string, cfg: Config): seq<Annotation>
  {
    if cfg.maxLength == "" then []
    else if IsNumericType(cfg.typeName) then [Max(name, cfg.maxLength)]
    else [Size(name, cfg.maxLength)]
  }

  /** The import an annotation needs; a doc comment needs none. */
  function AnnotationImport(a: Annotation, pkg: string): Option<string>
  {
    match a
    case Doc(_) => None
    case JsonProperty(_) => Some(JsonPropertyImport)
    case JsonAlias(_) => Some(JsonAliasImport)
    case NotBlank(_) => Some(ConstraintImport(pkg, "NotBlank"))
    case NotNull(_) => Some(ConstraintImport(pkg, "NotNull"))
    case Max(_, _) => Some(ConstraintImport(pkg, "Max"))
    case Size(_, _) => Some(ConstraintImport(pkg, "Size"))
  }

  function Quote(s: string): string
  {
    "\"" + s + "\""
  }

  function QuotedList(items: seq<string>): string
  {
    Join(seq(|items|, i requires 0 <= i < |items| => Quote(items[i])), ", ")
  }

  /** The line an annotation is printed as. */
  function RenderAnnotation(a: Annotation): string
  {
    match a
    case Doc(c) => "    /** " + c + " */\n"
    case JsonProperty(n) => "    @JsonProperty(" + Quote(n) + ")\n"
    case JsonAlias(t) => "    @JsonAlias(" + QuotedList(Aliases(t)) + ")\n"
    case NotBlank(n) => "    @NotBlank(message=" + Quote(n + " 不得為空") + ")\n"
    case NotNull(n) => "    @NotNull(message=" + Quote(n + " 不得為空") + ")\n"
    case Max(n, m) =>
      var v := MaxValueText(m);
      "    @Max(message = " + Quote(n + " 不得超過 " + v) + ", value = " + v + ")\n"
    case Size(n, b) => "    @Size(message = " + Quote(n + " 長度不得超過 " + b) + ", max = " + b + ")\n"
  }

  function RenderAll(anns: seq<Annotation>): string
  {
    if anns == [] then "" else RenderAnnotation(anns[0]) + RenderAll(anns[1..])
  }

  lemma {:induction false} RenderAllAppend(a: seq<Annotation>, b: seq<Annotation>)
    ensures RenderAll(a + b) == RenderAll(a) + RenderAll(b)
  {
    if a == [] {
      assert a + b == b;
    } else {
      assert (a + b)[0] == a[0];
      assert (a + b)[1..] == a[1..] + b;
      RenderAllAppend(a[1..], b);
    }
  }

  // ----- Field identifier and class text -----

  /** `replace(/^[A-Z]/, m => m.toLowerCase())`. */
  function LowerFirst(s: string): string
  {
    if s != [] && IsUpperAscii(s[0]) then [ToLowerAscii(s[0])] + s[1..] else s
  }

  /** Lowering the first letter undoes `capitalize` on a name that starts with a lower-case
      letter. */
  lemma LowerFirstUndoesCapitalize(s: string)
    requires s != [] && IsLowerAscii(s[0])
    ensures LowerFirst(Capitalize(s)) == s
  {
    assert IsUpperAscii(Capitalize(s)[0]);
    assert Capitalize(s)[1..] == s[1..];
  }

  /** `replace(/_([a-zA-Z])/g, (_, c) => c.toUpperCase())`: a left-to-right scan that
      replaces each underscore followed by an ASCII letter with that letter upper-cased. */
  function ReplaceUnderscores(s: string): string
  {
    if |s| >= 2 && s[0] == '_' && IsAsciiLetter(s[1]) then [ToUpperAscii(s[1])] + ReplaceUnderscores(s[2..])
    else if s == [] then []
    else [s[0]] + ReplaceUnderscores(s[1..])
  }

  /** The Java field name made from the JSON key (script.js:374). */
  function CamelCase(name: string): string
  {
    ReplaceUnderscores(LowerFirst(name))
  }

  /** The text of one field: its annotations and its declaration (script.js:353-375). */
  function FieldText(name: string, cfg: Config): string
  {
    RenderAll(Annotations(name, cfg)) + Declaration(cfg.typeName, CamelCase(name))
  }

  /** `    private ${type} ${camelCaseName};` and a blank line. */
  function Declaration(typeName: string, identifier: string): string
  {
    "    private " + typeName + " " + identifier + ";\n\n"
  }

  /** The text of the first `n` fields. */
  function FieldsText(className: string, fields: seq<FieldDescriptor>, configs: map<string, Config>, n: nat): string
    requires n <= |fields| && HasConfigs(className, fields, configs)
  {
    if n == 0 then ""
    else FieldsText(className, fields, configs, n - 1) + FieldText(fields[n - 1].name, configs[Path(className, fields[n - 1].name)])
  }

  /** The sorted import lines and the class head up to the first field (script.js:344-347). */
  ghost function Header(className: string, fields: seq<FieldDescriptor>, configs: map<string, Config>, javaVersion: string): string
    requires HasConfigs(className, fields, configs)
  {
    Join(SortedSeq(ImportsOf(className, fields, configs, ValidationPackage(javaVersion), WholeType, |fields|)), "\n")
    + ClassOpening(className)
  }

  /** What follows the imports: `@Data`, the class line and the serial version field. */
  function ClassOpening(className: string): string
  {
    OpeningHead + className + OpeningTail
  }

  const OpeningHead := "\n\n@Data\npublic class "
  const OpeningTail := " implements Serializable {\n\n    /** serialVersionUID */\n    private static final long serialVersionUID = 1L;\n\n"

  /** The whole text `generateClass` returns. */
  ghost function ClassText(className: string, fields: seq<FieldDescriptor>, configs: map<string, Config>, javaVersion: string): string
    requires HasConfigs(className, fields, configs)
  {
    Header(className, fields, configs, javaVersion) + FieldsText(className, fields, configs, |fields|) + "}"
  }

  /** `generateClass(className, fields)`: collects the imports in a set, sorts them, then
      appends each field's annotations and declaration. */
  method GenerateClass(className: string, fields: seq<FieldDescriptor>, configs: map<string, Config>, javaVersion: string)
    returns (code: string)
    requires HasConfigs(className, fields, configs)
    ensures code == ClassText(className, fields, configs, javaVersion)
  {
    var validationPackage := ValidationPackage(javaVersion);
    var imports := CollectImports(className, fields, configs, validationPackage);
    var sorted := SortSet(imports);
    code := Join(sorted, "\n") + ClassOpening(className);
    code := AppendFields(code, className, fields, configs);
    code := code + "}";
  }

  /** The second loop of `generateClass` (script.js:349-376): each field's text, in order. */
  method AppendFields(header: string, className: string, fields: seq<FieldDescriptor>, configs: map<string, Config>)
    returns (code: string)
    requires HasConfigs(className, fields, configs)
    ensures code == header + FieldsText(className, fields, configs, |fields|)
  {
    code := header;
    for i := 0 to |fields|
      invariant code == header + FieldsText(className, fields, configs, i)
    {
      var name := fields[i].name;
      code := AppendField(code, name, configs[Path(className, name)]);
      SeqRegroup(header, FieldsText(className, fields, configs, i), FieldText(name, configs[Path(className, name)]));
    }
  }

  /** The first loop of `generateClass` (script.js:314-342): the baseline imports and
      those each field adds. */
  method CollectImports(className: string, fields: seq<FieldDescriptor>, configs: map<string, Config>, validationPackage: string)
    returns (imports: set<string>)
    requires HasConfigs(className, fields, configs)
    ensures imports == ImportsOf(className, fields, configs, validationPackage, WholeType, |fields|)
  {
    imports := BaselineImports;
    ghost var sets := FieldImportSets(className, fields, configs, validationPackage, WholeType);
    UnionRegroup(BaselineImports, {}, {});
    for i := 0 to |fields|
      invariant imports == ImportsOf(className, fields, configs, validationPackage, WholeType, i)
    {
      imports := AddFieldImports(imports, configs[Path(className, fields[i].name)], validationPackage);
      UnionRegroup(BaselineImports, UnionUpTo(sets, i), sets[i]);
    }
  }

  /** One round of the first loop of `generateClass` (script.js:325-341). */
  method AddFieldImports(imports: set<string>, cfg: Config, validationPackage: string) returns (result: set<string>)
    ensures result == imports + FieldImports(cfg, validationPackage, WholeType)
  {
    result := imports;
    if cfg.jsonAlias != "" {
      result := result + {JsonAliasImport};
    }
    ghost var added := AliasImports(cfg);
    assert result == imports + added;
    if cfg.required {
      if cfg.typeName == "String" {
        result := result + {ConstraintImport(validationPackage, "NotBlank")};
      } else {
        result := result + {ConstraintImport(validationPackage, "NotNull")};
      }
    }
    UnionRegroup(imports, added, RequiredImports(cfg, validationPackage));
    added := added + RequiredImports(cfg, validationPackage);
    assert result == imports + added;
    if cfg.maxLength != "" {
      if IsNumericType(cfg.typeName) {
        result := result + {ConstraintImport(validationPackage, "Max")};
      } else {
        result := result + {ConstraintImport(validationPackage, "Size")};
      }
    }
    UnionRegroup(imports, added, LengthImports(cfg, validationPackage));
    added := added + LengthImports(cfg, validationPackage);
    assert result == imports + added;
    if cfg.typeName == "BigDecimal" {
      result := result + {"import java.math.BigDecimal;"};
    } else if cfg.typeName == "LocalDate" {
      result := result + {"import java.time.LocalDate;"};
    } else if cfg.typeName == "LocalDateTime" {
      result := result + {"import java.time.LocalDateTime;"};
    } else if cfg.typeName == "Timestamp" {
      result := result + {"import java.sql.Timestamp;"};
    }
    UnionRegroup(imports, added, OptionSet(TypeImport(cfg.typeName)));
    added := added + OptionSet(TypeImport(cfg.typeName));
    assert result == imports + added;
    if IsListType(cfg.typeName) {
      result := result + {ListImport};
    }
    UnionRegroup(imports, added, ListImports(cfg.typeName));
  }

  /** One round of the second loop of `generateClass` (script.js:353-375). */
  method AppendField(code: string, name: string, cfg: Config) returns (result: string)
    ensures result == code + FieldText(name, cfg)
  {
    result := code;
    if cfg.comment != "" {
      result := result + RenderAnnotation(Doc(cfg.comment));
    }
    RenderShort(DocPart(cfg));
    ghost var text := RenderAll(DocPart(cfg));
    assert result == code + text;
    result := result + RenderAnnotation(JsonProperty(name));
    SeqRegroup(code, text, RenderAnnotation(JsonProperty(name)));
    text := text + RenderAnnotation(JsonProperty(name));
    assert result == code + text;
    if cfg.jsonAlias != "" {
      result := result + RenderAnnotation(JsonAlias(cfg.jsonAlias));
    }
    RenderShort(AliasPart(cfg));
    SeqRegroup(code, text, RenderAll(AliasPart(cfg)));
    text := text + RenderAll(AliasPart(cfg));
    assert result == code + text;
    if cfg.required {
      if cfg.typeName == "String" {
        result := result + RenderAnnotation(NotBlank(name));
      } else {
        result := result + RenderAnnotation(NotNull(name));
      }
    }
    RenderShort(RequiredPart(name, cfg));
    SeqRegroup(code, text, RenderAll(RequiredPart(name, cfg)));
    text := text + RenderAll(RequiredPart(name, cfg));
    assert result == code + text;
    if cfg.maxLength != "" {
      if IsNumericType(cfg.typeName) {
        result := result + RenderAnnotation(Max(name, cfg.maxLength));
      } else {
        result := result + RenderAnnotation(Size(name, cfg.maxLength));
      }
    }
    RenderShort(LengthPart(name, cfg));
    SeqRegroup(code, text, RenderAll(LengthPart(name, cfg)));
    text := text + RenderAll(LengthPart(name, cfg));
    assert result == code + text;
    result := result + Declaration(cfg.typeName, CamelCase(name));
    SeqRegroup(code, text, Declaration(cfg.typeName, CamelCase(name)));
    FieldTextPieces(name, cfg);
  }

  /** A field's text is its lines in order, each present under the source's condition. */
  lemma FieldTextPieces(name: string, cfg: Config)
    ensures FieldText(name, cfg) ==
      RenderAll(DocPart(cfg)) + RenderAnnotation(JsonProperty(name)) + RenderAll(AliasPart(cfg))
      + RenderAll(RequiredPart(name, cfg)) + RenderAll(LengthPart(name, cfg))
      + Declaration(cfg.typeName, CamelCase(name))
  {
    var a1, a2, a3, a4, a5 := DocPart(cfg), [JsonProperty(name)], AliasPart(cfg), RequiredPart(name, cfg), LengthPart(name, cfg);
    RenderAllAppend(a1 + a2 + a3 + a4, a5);
    RenderAllAppend(a1 + a2 + a3, a4);
    RenderAllAppend(a1 + a2, a3);
    RenderAllAppend(a1, a2);
    assert RenderAll(a2) == RenderAnnotation(JsonProperty(name));
  }

  // ----- What the header imports -----

  /** The union of the first `n` sets of `sets`. */
  function UnionUpTo(sets: seq<set<string>>, n: nat): set<string>
    requires n <= |sets|
  {
    if n == 0 then {} else UnionUpTo(sets, n - 1) + sets[n - 1]
  }

  lemma {:induction false} UnionUpToMembers(sets: seq<set<string>>, n: nat)
    requires n <= |sets|
    ensures forall x :: x in UnionUpTo(sets, n) <==> exists j :: 0 <= j < n && x in sets[j]
  {
    if n > 0 {
      UnionUpToMembers(sets, n - 1);
      var last := n - 1;
      assert forall x :: x in sets[last] ==> 0 <= last < n && x in sets[last];
    }
  }

  /** The imports of each field, in field order. */
  ghost function FieldImportSets(className: string, fields: seq<FieldDescriptor>, configs: map<string, Config>, pkg: string,
                                 lookup: TypeLookup): (r: seq<set<string>>)
    requires HasConfigs(className, fields, configs)
    ensures |r| == |fields|
  {
    seq(|fields|, j requires 0 <= j < |fields| => FieldImports(configs[Path(className, fields[j].name)], pkg, lookup))
  }

  /** The collected set is the baseline and what each of the first `n` fields adds. */
  lemma ImportsOfMembers(className: string, fields: seq<FieldDescriptor>, configs: map<string, Config>, pkg: string,
                         lookup: TypeLookup, n: nat)
    requires n <= |fields| && HasConfigs(className, fields, configs)
    ensures forall x :: x in ImportsOf(className, fields, configs, pkg, lookup, n) <==>
              x in BaselineImports || exists j :: 0 <= j < n && x in FieldImportSets(className, fields, configs, pkg, lookup)[j]
  {
    UnionUpToMembers(FieldImportSets(className, fields, configs, pkg, lookup), n);
  }

  /** The import lines a field needs that the generator knows of: those of its annotations,
      the import of one of the four typed names (`BigDecimal`, `LocalDate`, `LocalDateTime`,
      `Timestamp`) as its type or as the element type of one `List<…>`, and `java.util.List`
      for a list type. Types nested deeper or inside other generics are not looked into. */
  ghost predicate Needs(name: string, cfg: Config, pkg: string, x: string)
  {
    (exists a :: a in Annotations(name, cfg) && AnnotationImport(a, pkg) == Some(x))
    || TypeImport(BaseType(cfg.typeName)) == Some(x)
    || (x == ListImport && IsListType(cfg.typeName))
  }

  /** With the element-type lookup, a field adds exactly the imports it needs, except
      `@JsonProperty`'s, which is in the baseline. */
  lemma FieldImportsExact(name: string, cfg: Config, pkg: string, x: string)
    ensures Needs(name, cfg, pkg, x) <==> x in FieldImports(cfg, pkg, ElementType) || x == JsonPropertyImport
  {
    var anns := Annotations(name, cfg);
    assert anns == DocPart(cfg) + [JsonProperty(name)] + AliasPart(cfg) + RequiredPart(name, cfg) + LengthPart(name, cfg);
    if x in FieldImports(cfg, pkg, ElementType) || x == JsonPropertyImport {
      if x == JsonPropertyImport {
        assert JsonProperty(name) in anns;
      } else if x in AliasImports(cfg) {
        assert AliasPart(cfg)[0] in anns;
      } else if x in RequiredImports(cfg, pkg) {
        assert RequiredPart(name, cfg)[0] in anns;
      } else if x in LengthImports(cfg, pkg) {
        assert LengthPart(name, cfg)[0] in anns;
      }
    }
    if a :| a in anns && AnnotationImport(a, pkg) == Some(x) {
      if a in DocPart(cfg) {
      } else if a in AliasPart(cfg) {
        assert x in AliasImports(cfg);
      } else if a in RequiredPart(name, cfg) {
        assert x in RequiredImports(cfg, pkg);
      } else if a in LengthPart(name, cfg) {
        assert x in LengthImports(cfg, pkg);
      }
    }
  }

  /** With the element-type lookup, a class imports a line exactly when it is a baseline
      import or some field needs it. */
  lemma HeaderImportsExact(className: string, fields: seq<FieldDescriptor>, configs: map<string, Config>, javaVersion: string, x: string)
    requires HasConfigs(className, fields, configs)
    ensures x in ImportsOf(className, fields, configs, ValidationPackage(javaVersion), ElementType, |fields|) <==>
              x in BaselineImports ||
              exists j :: 0 <= j < |fields| && Needs(fields[j].name, configs[Path(className, fields[j].name)], ValidationPackage(javaVersion), x)
  {
    var pkg := ValidationPackage(javaVersion);
    var sets := FieldImportSets(className, fields, configs, pkg, ElementType);
    ImportsOfMembers(className, fields, configs, pkg, ElementType, |fields|);
    forall j | 0 <= j < |fields|
      ensures Needs(fields[j].name, configs[Path(className, fields[j].name)], pkg, x) <==> x in sets[j] || x == JsonPropertyImport
    {
      FieldImportsExact(fields[j].name, configs[Path(className, fields[j].name)], pkg, x);
    }
    assert JsonPropertyImport in BaselineImports;
  }

  /** The import lines of a class are in ascending order, each line once, and include the
      four baseline imports, whichever lookup chose them. */
  lemma HeaderLines(className: string, fields: seq<FieldDescriptor>, configs: map<string, Config>, javaVersion: string, lookup: TypeLookup)
    requires HasConfigs(className, fields, configs)
    ensures var lines := SortedSeq(ImportsOf(className, fields, configs, ValidationPackage(javaVersion), lookup, |fields|));
            Sorted(lines)
            && (forall i, j :: 0 <= i < j < |lines| ==> lines[i] != lines[j])
            && (forall x :: x in BaselineImports ==> x in lines)
  {
    var lines := SortedSeq(ImportsOf(className, fields, configs, ValidationPackage(javaVersion), lookup, |fields|));
    ImportsOfMembers(className, fields, configs, ValidationPackage(javaVersion), lookup, |fields|);
    forall i, j | 0 <= i < j < |lines|
      ensures lines[i] != lines[j]
    {
      BelowIrreflexive(lines[i]);
    }
  }

  /** A field imports `java.util.List` exactly when its type is a list type. */
  lemma ListImportOfField(cfg: Config, javaVersion: string, lookup: TypeLookup)
    ensures ListImport in FieldImports(cfg, ValidationPackage(javaVersion), lookup) <==> IsListType(cfg.typeName)
  {
    var pkg := ValidationPackage(javaVersion);
    assert |ListImport| == 22;
    assert |JsonAliasImport| != 22;
    assert |ConstraintImport(pkg, "NotBlank")| != 22 && |ConstraintImport(pkg, "NotNull")| != 22;
    assert |ConstraintImport(pkg, "Max")| != 22 && |ConstraintImport(pkg, "Size")| != 22;
  }

  /** A class imports `java.util.List` exactly when one of its fields has a list type. */
  lemma ListImportIff(className: string, fields: seq<FieldDescriptor>, configs: map<string, Config>, javaVersion: string, lookup: TypeLookup)
    requires HasConfigs(className, fields, configs)
    ensures ListImport in ImportsOf(className, fields, configs, ValidationPackage(javaVersion), lookup, |fields|) <==>
              exists j :: 0 <= j < |fields| && IsListType(configs[Path(className, fields[j].name)].typeName)
  {
    var pkg := ValidationPackage(javaVersion);
    var sets := FieldImportSets(className, fields, configs, pkg, lookup);
    ImportsOfMembers(className, fields, configs, pkg, lookup, |fields|);
    forall j | 0 <= j < |fields|
      ensures ListImport in sets[j] <==> IsListType(configs[Path(className, fields[j].name)].typeName)
    {
      ListImportOfField(configs[Path(className, fields[j].name)], javaVersion, lookup);
    }
    assert ListImport !in BaselineImports;
  }

  /** With the element-type lookup, every import a field's element type needs is in its
      class's header. */
  lemma ElementTypeImported(className: string, fields: seq<FieldDescriptor>, configs: map<string, Config>, javaVersion: string, j: nat)
    requires HasConfigs(className, fields, configs) && j < |fields|
    requires TypeImport(BaseType(configs[Path(className, fields[j].name)].typeName)).Some?
    ensures TypeImport(BaseType(configs[Path(className, fields[j].name)].typeName)).value
              in ImportsOf(className, fields, configs, ValidationPackage(javaVersion), ElementType, |fields|)
  {
    var x := TypeImport(BaseType(configs[Path(className, fields[j].name)].typeName)).value;
    assert Needs(fields[j].name, configs[Path(className, fields[j].name)], ValidationPackage(javaVersion), x);
    HeaderImportsExact(className, fields, configs, javaVersion, x);
  }

  /** No list type is one of the four types with an import of their own. */
  lemma ListTypeNotImported(t: string)
    requires IsListType(t)
    ensures TypeImport(t) == None
  {
    assert t[..5] == "List<";
    assert t[0] == 'L' && t[1] == 'i';
  }

  /** The whole-type lookup adds a subset of what the element-type lookup adds, and misses
      only the element type's import of a list type. */
  lemma AsWrittenWithinCorrected(cfg: Config, pkg: string)
    ensures FieldImports(cfg, pkg, WholeType) <= FieldImports(cfg, pkg, ElementType)
    ensures forall x :: x in FieldImports(cfg, pkg, ElementType) && x !in FieldImports(cfg, pkg, WholeType) ==>
              IsListType(cfg.typeName) && TypeImport(BaseType(cfg.typeName)) == Some(x)
  {
    if IsListType(cfg.typeName) {
      ListTypeNotImported(cfg.typeName);
    }
  }

  /** The two lookups agree on every field whose type is not a list. */
  lemma AsWrittenAgreesOffLists(cfg: Config, pkg: string)
    requires !IsListType(cfg.typeName)
    ensures FieldImports(cfg, pkg, WholeType) == FieldImports(cfg, pkg, ElementType)
  {
  }

  /** The header `generateClass` writes imports only lines the element-type rule imports as
      well, and misses only imports of the element types of list fields. */
  lemma AsWrittenHeaderGap(className: string, fields: seq<FieldDescriptor>, configs: map<string, Config>, javaVersion: string, x: string)
    requires HasConfigs(className, fields, configs)
    ensures x in ImportsOf(className, fields, configs, ValidationPackage(javaVersion), WholeType, |fields|) ==>
              x in ImportsOf(className, fields, configs, ValidationPackage(javaVersion), ElementType, |fields|)
    ensures x in ImportsOf(className, fields, configs, ValidationPackage(javaVersion), ElementType, |fields|) &&
            x !in ImportsOf(className, fields, configs, ValidationPackage(javaVersion), WholeType, |fields|) ==>
              exists j :: 0 <= j < |fields| && IsListType(configs[Path(className, fields[j].name)].typeName)
                          && TypeImport(BaseType(configs[Path(className, fields[j].name)].typeName)) == Some(x)
  {
    var pkg := ValidationPackage(javaVersion);
    ImportsOfMembers(className, fields, configs, pkg, WholeType, |fields|);
    ImportsOfMembers(className, fields, configs, pkg, ElementType, |fields|);
    forall j | 0 <= j < |fields|
      ensures FieldImportSets(className, fields, configs, pkg, WholeType)[j] <= FieldImportSets(className, fields, configs, pkg, ElementType)[j]
      ensures x in FieldImportSets(className, fields, configs, pkg, ElementType)[j] && x !in FieldImportSets(className, fields, configs, pkg, WholeType)[j] ==>
                IsListType(configs[Path(className, fields[j].name)].typeName)
                && TypeImport(BaseType(configs[Path(className, fields[j].name)].typeName)) == Some(x)
    {
      AsWrittenWithinCorrected(configs[Path(className, fields[j].name)], pkg);
    }
  }

  /** Every line the header `generateClass` writes imports is a baseline import or needed by
      some field. */
  lemma AsWrittenImportsNeeded(className: string, fields: seq<FieldDescriptor>, configs: map<string, Config>, javaVersion: string, x: string)
    requires HasConfigs(className, fields, configs)
    requires x in ImportsOf(className, fields, configs, ValidationPackage(javaVersion), WholeType, |fields|)
    ensures x in BaselineImports ||
            exists j :: 0 <= j < |fields| && Needs(fields[j].name, configs[Path(className, fields[j].name)], ValidationPackage(javaVersion), x)
  {
    AsWrittenHeaderGap(className, fields, configs, javaVersion, x);
    HeaderImportsExact(className, fields, configs, javaVersion, x);
  }

  /** When no field of a class has a list type, the header `generateClass` writes is the
      element-type header, so it imports exactly what the class needs. */
  lemma AsWrittenExactOffLists(className: string, fields: seq<FieldDescriptor>, configs: map<string, Config>, javaVersion: string)
    requires HasConfigs(className, fields, configs)
    requires forall j :: 0 <= j < |fields| ==> !IsListType(configs[Path(className, fields[j].name)].typeName)
    ensures ImportsOf(className, fields, configs, ValidationPackage(javaVersion), WholeType, |fields|)
            == ImportsOf(className, fields, configs, ValidationPackage(javaVersion), ElementType, |fields|)
  {
    var pkg := ValidationPackage(javaVersion);
    forall j | 0 <= j < |fields|
      ensures FieldImportSets(className, fields, configs, pkg, WholeType)[j] == FieldImportSets(className, fields, configs, pkg, ElementType)[j]
    {
      AsWrittenAgreesOffLists(configs[Path(className, fields[j].name)], pkg);
    }
    assert FieldImportSets(className, fields, configs, pkg, WholeType) == FieldImportSets(className, fields, configs, pkg, ElementType);
  }

  /** With the whole-type lookup a `List<BigDecimal>` field adds no import of
      `java.math.BigDecimal`; with the element-type lookup it does. */
  lemma ListOfBigDecimalImport()
    ensures var cfg := Config("amounts", "List<BigDecimal>", false, "", "", "", "");
            "import java.math.BigDecimal;" !in FieldImports(cfg, ValidationPackage("17"), WholeType)
            && "import java.math.BigDecimal;" in FieldImports(cfg, ValidationPackage("17"), ElementType)
  {
    BaseOfListOf("BigDecimal");
    assert ListOf("BigDecimal") == "List<BigDecimal>";
    var pkg := ValidationPackage("17");
    assert |ListImport| != 28;
  }

  /** A class `C` whose one field `amounts` is saved as `List<BigDecimal>` declares a
      `BigDecimal` list, yet the header `generateClass` writes for it does not import
      `java.math.BigDecimal`, so the generated class does not compile. */
  lemma ListOfBigDecimalHeader()
    ensures var fields := [FieldDescriptor("amounts", "String", true)];
            var configs := map[Path("C", "amounts") := Config("amounts", "List<BigDecimal>", false, "", "", "", "")];
            HasConfigs("C", fields, configs)
            && Needs("amounts", configs[Path("C", "amounts")], ValidationPackage("17"), "import java.math.BigDecimal;")
            && "import java.math.BigDecimal;" !in ImportsOf("C", fields, configs, ValidationPackage("17"), WholeType, 1)
  {
    var fields := [FieldDescriptor("amounts", "String", true)];
    var configs := map[Path("C", "amounts") := Config("amounts", "List<BigDecimal>", false, "", "", "", "")];
    var cfg := configs[Path("C", "amounts")];
    var pkg := ValidationPackage("17");
    assert fields[0].name == "amounts";
    assert HasConfigs("C", fields, configs);
    ListOfBigDecimalImport();
    BaseOfListOf("BigDecimal");
    assert ListOf("BigDecimal") == cfg.typeName;
    assert TypeImport(BaseType(cfg.typeName)) == Some("import java.math.BigDecimal;");
    ImportsOfMembers("C", fields, configs, pkg, WholeType, 1);
    assert FieldImportSets("C", fields, configs, pkg, WholeType)[0] == FieldImports(cfg, pkg, WholeType);
    assert "import java.math.BigDecimal;" !in BaselineImports;
  }

  // ----- Annotations -----

  /** An annotation is on a field exactly when it is in one of the five groups. */
  lemma InAnnotations(name: string, cfg: Config, a: Annotation)
    ensures a in Annotations(name, cfg) <==>
              a in DocPart(cfg) || a == JsonProperty(name) || a in AliasPart(cfg)
              || a in RequiredPart(name, cfg) || a in LengthPart(name, cfg)
  {
    var p1, p2, p3, p4, p5 := DocPart(cfg), [JsonProperty(name)], AliasPart(cfg), RequiredPart(name, cfg), LengthPart(name, cfg);
    assert Annotations(name, cfg) == p1 + p2 + p3 + p4 + p5;
  }

  /** Every field carries `@JsonProperty` with its original key, and a doc comment and
      `@JsonAlias` exactly when those are set. */
  lemma NamingAnnotations(name: string, cfg: Config)
    ensures forall n :: JsonProperty(n) in Annotations(name, cfg) <==> n == name
    ensures forall c :: Doc(c) in Annotations(name, cfg) <==> cfg.comment != "" && c == cfg.comment
    ensures forall t :: JsonAlias(t) in Annotations(name, cfg) <==> cfg.jsonAlias != "" && t == cfg.jsonAlias
  {
    forall n ensures JsonProperty(n) in Annotations(name, cfg) <==> n == name {
      InAnnotations(name, cfg, JsonProperty(n));
    }
    forall c ensures Doc(c) in Annotations(name, cfg) <==> cfg.comment != "" && c == cfg.comment {
      InAnnotations(name, cfg, Doc(c));
    }
    forall t ensures JsonAlias(t) in Annotations(name, cfg) <==> cfg.jsonAlias != "" && t == cfg.jsonAlias {
      InAnnotations(name, cfg, JsonAlias(t));
    }
  }

  /** A required field carries `@NotBlank` when it is a String and `@NotNull` otherwise;
      a field that is not required carries neither. */
  lemma RequiredAnnotations(name: string, cfg: Config)
    ensures forall n :: NotBlank(n) in Annotations(name, cfg) <==> cfg.required && cfg.typeName == "String" && n == name
    ensures forall n :: NotNull(n) in Annotations(name, cfg) <==> cfg.required && cfg.typeName != "String" && n == name
  {
    forall n ensures NotBlank(n) in Annotations(name, cfg) <==> cfg.required && cfg.typeName == "String" && n == name {
      InAnnotations(name, cfg, NotBlank(n));
    }
    forall n ensures NotNull(n) in Annotations(name, cfg) <==> cfg.required && cfg.typeName != "String" && n == name {
      InAnnotations(name, cfg, NotNull(n));
    }
  }

  /** A max length becomes `@Max` on the four numeric types and `@Size` on every other
      type. */
  lemma LengthAnnotations(name: string, cfg: Config)
    ensures forall n, m :: Max(n, m) in Annotations(name, cfg) <==>
              cfg.maxLength != "" && IsNumericType(cfg.typeName) && n == name && m == cfg.maxLength
    ensures forall n, m :: Size(n, m) in Annotations(name, cfg) <==>
              cfg.maxLength != "" && !IsNumericType(cfg.typeName) && n == name && m == cfg.maxLength
  {
    forall n, m ensures Max(n, m) in Annotations(name, cfg) <==>
        cfg.maxLength != "" && IsNumericType(cfg.typeName) && n == name && m == cfg.maxLength {
      InAnnotations(name, cfg, Max(n, m));
    }
    forall n, m ensures Size(n, m) in Annotations(name, cfg) <==>
        cfg.maxLength != "" && !IsNumericType(cfg.typeName) && n == name && m == cfg.maxLength {
      InAnnotations(name, cfg, Size(n, m));
    }
  }

  /** A max length of `d` digits allows the largest `d`-digit number, printed as `d` nines. */
  lemma MaxOfDigits(d: nat)
    requires d >= 1
    ensures MaxValueText(NatToString(d)) == Repeat('9', d)
  {
    ParseIntOfNatToString(d);
    MaxOfParsed(NatToString(d), d);
    NinesText(d);
  }

  lemma MaxOfParsed(s: string, n: nat)
    requires ParseInt(s) == Some(n as int)
    ensures MaxValueText(s) == NatToString(Pow10(n) - 1)
  {
    var nines := NatToString(Pow10(n) - 1);
    match ParseInt(s)
    case Some(k) =>
      assert k == n;
      assert MaxValueText(s) == nines;
  }

  /** The `@Max` line for a limit of `d` digits states `d` nines twice, in the message and
      as the value; the `@Size` line states the limit as typed. */
  lemma LengthLines(name: string, d: nat, maxLength: string)
    requires d >= 1
    ensures RenderAnnotation(Max(name, NatToString(d))) ==
              "    @Max(message = " + Quote(name + " 不得超過 " + Repeat('9', d)) + ", value = " + Repeat('9', d) + ")\n"
    ensures RenderAnnotation(Size(name, maxLength)) ==
              "    @Size(message = " + Quote(name + " 長度不得超過 " + maxLength) + ", max = " + maxLength + ")\n"
  {
    MaxOfDigits(d);
  }

  // ----- Properties of the identifier -----

  predicate NoDoubleUnderscore(s: string)
  {
    forall i :: 0 <= i < |s| - 1 ==> !(s[i] == '_' && s[i + 1] == '_')
  }

  predicate NoUnderscoreBeforeLetter(s: string)
  {
    forall i :: 0 <= i < |s| - 1 ==> !(s[i] == '_' && IsAsciiLetter(s[i + 1]))
  }

  lemma ReplaceKeepsHead(s: string)
    requires s != [] && s[0] != '_'
    ensures ReplaceUnderscores(s) != [] && ReplaceUnderscores(s)[0] == s[0]
  {
  }

  /** Without doubled underscores, no underscore is left in front of a letter. */
  lemma {:induction false} ReplaceLeavesNoUnderscoreLetter(s: string)
    requires NoDoubleUnderscore(s)
    ensures NoUnderscoreBeforeLetter(ReplaceUnderscores(s))
  {
    if |s| >= 2 && s[0] == '_' && IsAsciiLetter(s[1]) {
      ReplaceLeavesNoUnderscoreLetter(s[2..]);
    } else if s != [] {
      ReplaceLeavesNoUnderscoreLetter(s[1..]);
      if s[0] == '_' && |s| >= 2 {
        ReplaceKeepsHead(s[1..]);
      }
    }
  }

  /** A text with no underscore in front of a letter is left as it is. */
  lemma {:induction false} ReplaceIdentity(s: string)
    requires NoUnderscoreBeforeLetter(s)
    ensures ReplaceUnderscores(s) == s
  {
    if s != [] {
      ReplaceIdentity(s[1..]);
    }
  }

  /** The identifier of a key without doubled underscores has no underscore before a
      letter left, and does not begin with an upper-case letter unless the key begins
      with an underscore. */
  lemma CamelCaseShape(name: string)
    requires NoDoubleUnderscore(name)
    ensures NoUnderscoreBeforeLetter(CamelCase(name))
    ensures name != [] && name[0] != '_' ==> CamelCase(name) != [] && !IsUpperAscii(CamelCase(name)[0])
  {
    var t := LowerFirst(name);
    assert NoDoubleUnderscore(t);
    ReplaceLeavesNoUnderscoreLetter(t);
    if name != [] && name[0] != '_' {
      ReplaceKeepsHead(t);
    }
  }

  /** Making an identifier of an identifier changes nothing. */
  lemma CamelCaseIdempotent(name: string)
    requires NoDoubleUnderscore(name) && (name == [] || name[0] != '_')
    ensures CamelCase(CamelCase(name)) == CamelCase(name)
  {
    CamelCaseShape(name);
    ReplaceIdentity(CamelCase(name));
  }

  // ----- Helpers: sequence and set regrouping used by the proofs above -----

  lemma UnionRegroup(a: set<string>, b: set<string>, c: set<string>)
    ensures a + b + c == a + (b + c)
    ensures c == {} ==> a + b + c == a + b
  {
  }

  lemma RenderShort(anns: seq<Annotation>)
    requires |anns| <= 1
    ensures RenderAll(anns) == if anns == [] then "" else RenderAnnotation(anns[0])
  {
    if anns != [] {
      assert anns[1..] == [];
    }
  }

  lemma SeqRegroup(a: string, b: string, c: string)
    ensures a + b + c == a + (b + c)
  {
  }
}
