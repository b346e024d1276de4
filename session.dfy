/** The page's session state and its two handlers: the "Generate" click
    (script.js:62-101), which picks the root object, names the root class, resets and
    fills `fieldConfigurations` and writes every class to the output; and the field
    dialog (script.js:240-305), which opens on one record and saves it back, after which
    the output is generated again. */
module Session {
  import opened Text
  import opened Json
  import opened Schema
  import opened Extraction
  import opened FieldConfig
  import opened Render

  /** The reasons a handler stops without changing anything. */
  datatype Error =
    | InvalidProgramName   // the program name is empty once trimmed (script.js:54-66)
    | InvalidJson          // `JSON.parse` threw
    | MissingRoot          // neither TRANRQ nor TRANRS is truthy (script.js:72-81)
    | EmptyCustomType      // "Others" chosen with an empty custom type (script.js:278-283)
    | MissingRecord        // the dialog's path has no record: `config` is undefined

  datatype Outcome<T> = Ok(value: T) | Failed(error: Error)

  /** JavaScript truthiness of a parsed JSON value. JSON numbers are never NaN, so a
      number with a fractional part is never zero and always truthy. */
  predicate Truthy(v: JsonValue)
  {
    match v
    case JObject(_) => true
    case JArray(_) => true
    case JString(t) => t != ""
    case JInt(n) => n != 0
    case JNonInt => true
    case JBool(b) => b
    case JNull => false
  }

  /** `if (doc.key)`: the property exists and is truthy. */
  predicate TruthyAt(doc: JsonValue, key: string)
  {
    Get(doc, key).Some? && Truthy(Get(doc, key).value)
  }

  /** The object the classes are generated from, and whether it is a request. */
  datatype Root = Root(structure: JsonValue, isRequest: bool)

  /** Root selection (script.js:72-81): TRANRQ when it is truthy, else TRANRS when it
      is truthy, else no root. */
  function SelectRoot(doc: JsonValue): (r: Option<Root>)
    ensures r.Some? <==> TruthyAt(doc, "TRANRQ") || TruthyAt(doc, "TRANRS")
    ensures r.Some? ==> (r.value.isRequest <==> TruthyAt(doc, "TRANRQ"))
    ensures r.Some? ==> Truthy(r.value.structure)
    ensures r.Some? ==> Get(doc, if r.value.isRequest then "TRANRQ" else "TRANRS") == Some(r.value.structure)
  {
    if TruthyAt(doc, "TRANRQ") then Some(Root(Get(doc, "TRANRQ").value, true))
    else if TruthyAt(doc, "TRANRS") then Some(Root(Get(doc, "TRANRS").value, false))
    else None
  }

  /** The checks of the "Generate" handler in the order the source makes them: the
      program name first, then the parse, then the root. */
  function Admit(programName: string, parsed: Option<JsonValue>): (r: Outcome<Root>)
    ensures r == Failed(InvalidProgramName) <==> Trim(programName) == ""
    ensures r == Failed(InvalidJson) <==> Trim(programName) != "" && parsed.None?
    ensures r == Failed(MissingRoot) <==> Trim(programName) != "" && parsed.Some? && SelectRoot(parsed.value).None?
    ensures r.Ok? <==> Trim(programName) != "" && parsed.Some? && SelectRoot(parsed.value).Some?
    ensures r.Ok? ==> r.value == SelectRoot(parsed.value).value
  {
    if Trim(programName) == "" then Failed(InvalidProgramName)
    else if parsed.None? then Failed(InvalidJson)
    else
      match SelectRoot(parsed.value)
      case None => Failed(MissingRoot)
      case Some(root) => Ok(root)
  }

  /** `programName + (isRequest ? "Tranrq" : "Tranrs")` with the trimmed program name. */
  function RootClassName(programName: string, isRequest: bool): string
  {
    Trim(programName) + (if isRequest then "Tranrq" else "Tranrs")
  }

  /** The root class name starts with the trimmed program name and its last six
      characters tell a request from a response. */
  lemma RootClassNameParts(programName: string, isRequest: bool)
    ensures StartsWith(RootClassName(programName, isRequest), Trim(programName))
    ensures EndsWith(RootClassName(programName, isRequest), "Tranrq") <==> isRequest
    ensures EndsWith(RootClassName(programName, isRequest), "Tranrs") <==> !isRequest
  {
    var name := RootClassName(programName, isRequest);
    var t := Trim(programName);
    assert name[..|t|] == t;
    assert name[|name| - 6..] == (if isRequest then "Tranrq" else "Tranrs");
  }

  /** Different program names (once trimmed) or directions give different root classes. */
  lemma RootClassNameInjective(p1: string, r1: bool, p2: string, r2: bool)
    requires RootClassName(p1, r1) == RootClassName(p2, r2)
    ensures Trim(p1) == Trim(p2) && r1 == r2
  {
    var name := RootClassName(p1, r1);
    RootClassNameParts(p1, r1);
    RootClassNameParts(p2, r2);
    assert Trim(p1) == name[..|name| - 6];
    assert Trim(p2) == name[..|name| - 6];
  }

  // ----- The generated output (script.js:92-96, 300-305) -----

  /** A dictionary with a record for every field gives every class its records. */
  lemma CoversClass(configs: map<string, Config>, c: Classes, name: string)
    requires Covers(configs, c) && name in c.fields
    ensures HasConfigs(name, c.fields[name], configs)
  {
  }

  /** What round `i` of `javaCode += generateClass(…) + '\n\n'` adds, the classes taken
      in the dictionary's key order (empty for a class without its records, which the
      handlers never generate). */
  ghost function ClassTexts(c: Classes, configs: map<string, Config>, javaVersion: string): (r: seq<string>)
    ensures |r| == |c.names|
  {
    seq(|c.names|, i requires 0 <= i < |c.names| =>
      if c.names[i] in c.fields && HasConfigs(c.names[i], c.fields[c.names[i]], configs)
      then ClassText(c.names[i], c.fields[c.names[i]], configs, javaVersion) + "\n\n"
      else "")
  }

  /** The output of the generation loop. */
  ghost function Output(c: Classes, configs: map<string, Config>, javaVersion: string): string
  {
    Concat(ClassTexts(c, configs, javaVersion))
  }

  /** The generation loop of both handlers: extract the classes of `obj` under `rootName`,
      the root's name, then append each class's text and a blank line. */
  method GenerateAll(obj: JsonValue, rootName: string, configs: map<string, Config>, javaVersion: string)
    returns (javaCode: string)
    requires Covers(configs, Extract(obj, rootName))
    ensures javaCode == Output(Extract(obj, rootName), configs, javaVersion)
  {
    var classes := ExtractClasses(obj, rootName);
    javaCode := AppendClasses(classes, configs, javaVersion);
  }

  /** `for (const className in classes) javaCode += generateClass(…) + '\n\n';` */
  method AppendClasses(c: Classes, configs: map<string, Config>, javaVersion: string) returns (javaCode: string)
    requires Valid(c) && Covers(configs, c)
    ensures javaCode == Output(c, configs, javaVersion)
  {
    ghost var texts := ClassTexts(c, configs, javaVersion);
    javaCode := "";
    for i := 0 to |c.names|
      invariant javaCode == Concat(texts[..i])
    {
      var className := c.names[i];
      CoversClass(configs, c, className);
      var code := GenerateClass(className, c.fields[className], configs, javaVersion);
      ConcatSnoc(texts, i);
      SeqRegroup(javaCode, code, "\n\n");
      javaCode := javaCode + code + "\n\n";
    }
    assert texts[..|c.names|] == texts;
  }

  /** Each class's text, followed by a blank line, sits in the output right after the
      texts of the classes before it in key order. */
  lemma OutputHasEveryClass(c: Classes, configs: map<string, Config>, javaVersion: string, i: nat)
    requires Valid(c) && Covers(configs, c) && i < |c.names|
    ensures HasConfigs(c.names[i], c.fields[c.names[i]], configs)
    ensures ClassTexts(c, configs, javaVersion)[i] ==
              ClassText(c.names[i], c.fields[c.names[i]], configs, javaVersion) + "\n\n"
    ensures var texts := ClassTexts(c, configs, javaVersion);
            var start := |Concat(texts[..i])|;
            start + |texts[i]| <= |Output(c, configs, javaVersion)|
            && Output(c, configs, javaVersion)[start..start + |texts[i]|] == texts[i]
  {
    ConcatPart(ClassTexts(c, configs, javaVersion), i);
  }

  // ----- Default records -----

  /** The default-record loops of `displayStructure` (script.js:155-179): every field of
      every class, in order, gets a default record unless its path has one. */
  method AddDefaultRecords(configs: map<string, Config>, classes: Classes) returns (result: map<string, Config>)
    requires Valid(classes)
    ensures result == AddDefaults(configs, classes, |classes.names|)
  {
    result := configs;
    for k := 0 to |classes.names|
      invariant result == AddDefaults(configs, classes, k)
    {
      var className := classes.names[k];
      result := AddClassDefaults(result, className, classes.fields[className]);
    }
  }

  /** The inner loop: the fields of one class. */
  method AddClassDefaults(configs: map<string, Config>, className: string, fields: seq<FieldDescriptor>)
    returns (result: map<string, Config>)
    ensures result == AddFieldDefaults(configs, className, fields, |fields|)
  {
    result := configs;
    for j := 0 to |fields|
      invariant result == AddFieldDefaults(configs, className, fields, j)
    {
      var fieldPath := Path(className, fields[j].name);
      ghost var before := result;
      if fieldPath !in result {
        result := result[fieldPath := DefaultConfig(fields[j])];
      }
      assert result == (if fieldPath in before then before else before[fieldPath := DefaultConfig(fields[j])]);
    }
  }

  /** `displayStructure(obj, path)` (script.js:151-200) without its DOM: extracts the
      classes and adds the default records to `configs`, the `fieldConfigurations` it
      updates. */
  method DisplayStructure(configs: map<string, Config>, obj: JsonValue, path: string) returns (result: map<string, Config>)
    ensures result == AddDefaults(configs, Extract(obj, path), |Extract(obj, path).names|)
    ensures Covers(result, Extract(obj, path))
  {
    var classes := ExtractClasses(obj, path);
    result := AddDefaultRecords(configs, classes);
    DefaultsCover(configs, classes);
  }

  /** Showing the structure again adds nothing once every field has a record: the
      records the field dialog saved survive. */
  lemma AddDefaultsKeepsCovering(configs: map<string, Config>, c: Classes)
    requires Valid(c) && Covers(configs, c)
    ensures AddDefaults(configs, c, |c.names|) == configs
  {
    var r := AddDefaults(configs, c, |c.names|);
    DefaultsKeep(configs, c, |c.names|);
    forall p | p in r
      ensures p in configs
    {
      if p !in configs {
        DefaultsOnly(configs, c, |c.names|, p);
        assert false;
      }
    }
  }

  /** A record is replaced without changing which paths have one. */
  lemma CoversAfterUpdate(configs: map<string, Config>, c: Classes, p: string, cfg: Config)
    requires Covers(configs, c) && p in configs
    ensures Covers(configs[p := cfg], c)
  {
  }

  // ----- The page -----

  /** The globals of script.js:33-37 and the output editor's text. */
  class Page {
    /** `jsonStructure`: the root object of the last successful generation, `null` before. */
    var jsonStructure: JsonValue
    var isRequest: bool
    var rootClassName: string
    /** `fieldConfigurations`: path `Class.field` to the field's record. */
    var fieldConfigurations: map<string, Config>
    /** `currentField`: the path the field dialog was last opened on. */
    var currentField: Option<string>
    /** The text of the output editor. */
    var output: string

    /** The classes the current structure yields. */
    ghost function Structure(): Classes
      reads this
    {
      Extract(jsonStructure, rootClassName)
    }

    /** Every field of the current structure has a record, so `generateClass` always
        finds one. */
    ghost predicate Valid()
      reads this
    {
      Covers(fieldConfigurations, Structure())
    }

    constructor ()
      ensures Valid()
      ensures jsonStructure == JNull && !isRequest && rootClassName == ""
      ensures fieldConfigurations == map[] && currentField == None && output == ""
    {
      jsonStructure := JNull;
      isRequest := false;
      rootClassName := "";
      fieldConfigurations := map[];
      currentField := None;
      output := "";
      assert Extract(JNull, "") == Classes([""], map["" := []]);
    }

    /** The state a successful generation leaves: the root kept under its class name, a
        default record for every field of its classes and every class in the output. */
    ghost predicate Generated(root: Root, name: string, javaVersion: string)
      reads this
    {
      && jsonStructure == root.structure && isRequest == root.isRequest && rootClassName == name
      && fieldConfigurations == AddDefaults(map[], Extract(root.structure, name), |Extract(root.structure, name).names|)
      && output == Output(Extract(root.structure, name), fieldConfigurations, javaVersion)
    }

    /** The "Generate" click handler (script.js:62-101) with the program name box, the
        parse of the JSON editor and the Java version selector as parameters. */
    method Generate(programName: string, parsed: Option<JsonValue>, javaVersion: string) returns (err: Option<Error>)
      modifies this
      ensures Admit(programName, parsed).Failed? ==>
                err == Some(Admit(programName, parsed).error) && unchanged(this)
      ensures Admit(programName, parsed).Ok? ==>
                var root := Admit(programName, parsed).value;
                err == None && Valid() && Generated(root, RootClassName(programName, root.isRequest), javaVersion)
                && currentField == old(currentField)
    {
      var admitted := Admit(programName, parsed);
      if admitted.Failed? {
        return Some(admitted.error);
      }
      Load(admitted.value, RootClassName(programName, admitted.value.isRequest), javaVersion);
      err := None;
    }

    /** The successful part of the handler: keep the root, name the root class, reset
        the records, show the structure and write every class to the output. */
    method Load(root: Root, name: string, javaVersion: string)
      modifies this`jsonStructure, this`isRequest, this`rootClassName, this`fieldConfigurations, this`output
      ensures Valid() && Generated(root, name, javaVersion)
    {
      jsonStructure, isRequest, rootClassName := root.structure, root.isRequest, name;
      fieldConfigurations := DisplayStructure(map[], jsonStructure, rootClassName);
      WriteOutput(javaVersion);
    }

    /** The generation block both handlers end with (script.js:92-97, 300-307): the texts
        of all classes of the current structure, in key order, into the output editor. */
    method WriteOutput(javaVersion: string)
      requires Valid()
      modifies this`output
      ensures output == Output(Extract(jsonStructure, rootClassName), fieldConfigurations, javaVersion)
    {
      output := GenerateAll(jsonStructure, rootClassName, fieldConfigurations, javaVersion);
    }

    /** `openFieldModal(fieldPath)` (script.js:240-264): remembers the path and returns
        the values put in the dialog; `customTypeInput` is what the custom type box held
        before. With no record for the path the source stops at `config.name`. */
    method OpenFieldModal(fieldPath: string, customTypeInput: string) returns (form: Option<FieldForm>)
      modifies this`currentField
      ensures currentField == Some(fieldPath)
      ensures form == (if fieldPath in fieldConfigurations
                       then Some(FormFor(fieldConfigurations[fieldPath], customTypeInput)) else None)
    {
      currentField := Some(fieldPath);
      if fieldPath in fieldConfigurations {
        form := Some(FormFor(fieldConfigurations[fieldPath], customTypeInput));
      } else {
        form := None;
      }
    }

    /** `saveFieldConfiguration` (script.js:273-307) with the dialog's controls as `form`:
        rewrites the current record, shows the structure again and, when there is a
        structure and a root class name, generates the output again. With no current
        field nothing happens and no error is reported. */
    method SaveFieldConfiguration(form: FieldForm, javaVersion: string) returns (err: Option<Error>)
      requires Valid()
      modifies this`fieldConfigurations, this`output
      ensures Valid()
      ensures currentField.None? ==> err == None && unchanged(this)
      ensures currentField.Some? && form.selectedType == "Others" && Trim(form.customTypeInput) == "" ==>
                err == Some(EmptyCustomType) && unchanged(this)
      ensures currentField.Some? && !(form.selectedType == "Others" && Trim(form.customTypeInput) == "")
              && currentField.value !in old(fieldConfigurations) ==>
                err == Some(MissingRecord) && unchanged(this)
      ensures currentField.Some? && !(form.selectedType == "Others" && Trim(form.customTypeInput) == "")
              && currentField.value in old(fieldConfigurations) ==>
                && err == None
                && SaveConfig(old(fieldConfigurations)[currentField.value], form).Some?
                && fieldConfigurations == old(fieldConfigurations)[currentField.value := SaveConfig(old(fieldConfigurations)[currentField.value], form).value]
                && (if Truthy(jsonStructure) && rootClassName != ""
                    then output == Output(Extract(jsonStructure, rootClassName), fieldConfigurations, javaVersion)
                    else output == old(output))
    {
      if currentField.None? {
        return None;
      }
      if form.selectedType == "Others" && ChosenType(form) == "" {
        return Some(EmptyCustomType);
      }
      var path := currentField.value;
      if path !in fieldConfigurations {
        return Some(MissingRecord);
      }
      var saved := SaveConfig(fieldConfigurations[path], form);
      Store(path, saved.value, javaVersion);
      err := None;
    }

    /** The successful part of the save: replace the record, show the structure again
        and, when there is a structure and a root class name, write the output again. */
    method Store(path: string, cfg: Config, javaVersion: string)
      requires Valid() && path in fieldConfigurations
      modifies this`fieldConfigurations, this`output
      ensures Valid()
      ensures fieldConfigurations == old(fieldConfigurations)[path := cfg]
      ensures Truthy(jsonStructure) && rootClassName != "" ==>
                output == Output(Extract(jsonStructure, rootClassName), fieldConfigurations, javaVersion)
      ensures !(Truthy(jsonStructure) && rootClassName != "") ==> output == old(output)
    {
      ghost var structure := Structure();
      CoversAfterUpdate(fieldConfigurations, structure, path, cfg);
      var updated := fieldConfigurations[path := cfg];
      fieldConfigurations := DisplayStructure(updated, jsonStructure, rootClassName);
      AddDefaultsKeepsCovering(updated, structure);
      if Truthy(jsonStructure) && rootClassName != "" {
        WriteOutput(javaVersion);
      }
    }
  }
}
