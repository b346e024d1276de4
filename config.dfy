/** The per-field override records of `fieldConfigurations`: the default record made
    the first time a field is shown (script.js:169-179), the values the field dialog is
    opened with (script.js:243-258), and the rewrite applied when the dialog is saved
    (script.js:278-294). */
module FieldConfig {
  import opened Text
  import opened Schema

  /** `{ name, type, required, maxLength, jsonAlias, comment, customType }`; `maxLength`
      is the text of the form's max-length box. */
  datatype Config = Config(
    name: string,
    typeName: string,
    required: bool,
    maxLength: string,
    jsonAlias: string,
    comment: string,
    customType: string)

  /** The key of a field's record: `${className}.${field.name}`. */
  function Path(className: string, fieldName: string): string
  {
    className + "." + fieldName
  }

  predicate IsListType(t: string)
  {
    StartsWith(t, "List<")
  }

  function ListOf(t: string): string
  {
    "List<" + t + ">"
  }

  /** `type.startsWith('List<') ? type.slice(5, -1) : type`. */
  function BaseType(t: string): string
  {
    if IsListType(t) then (if |t| >= 6 then t[5..|t| - 1] else "") else t
  }

  /** Taking the element type of a wrapped type gives back what was wrapped. */
  lemma BaseOfListOf(t: string)
    ensures IsListType(ListOf(t)) && BaseType(ListOf(t)) == t
  {
    assert ListOf(t)[..5] == "List<";
    assert ListOf(t)[5..|ListOf(t)| - 1] == t;
  }

  /** `isStandardType` (script.js:146-149): the types the dialog's type selector offers. */
  predicate IsStandardType(t: string)
  {
    t in ["String", "Integer", "Long", "Double", "Boolean", "BigDecimal", "LocalDate", "LocalDateTime", "Timestamp"]
  }

  /** The record made for a field that has none yet (script.js:170-178): the inferred
      type, wrapped in `List<…>` for a list, and every constraint off. */
  function DefaultConfig(f: FieldDescriptor): (r: Config)
    ensures r.name == f.name && !r.required
    ensures r.maxLength == "" && r.jsonAlias == "" && r.comment == "" && r.customType == ""
    ensures f.isList ==> r.typeName == ListOf(f.typeName)
    ensures f.isList ==> IsListType(r.typeName) && BaseType(r.typeName) == f.typeName
    ensures !f.isList ==> r.typeName == f.typeName
  {
    BaseOfListOf(f.typeName);
    Config(f.name, if f.isList then ListOf(f.typeName) else f.typeName, false, "", "", "", "")
  }

  /** The values of the field dialog's controls. */
  datatype FieldForm = FieldForm(
    selectedType: string,
    customTypeInput: string,
    required: bool,
    maxLength: string,
    jsonAlias: string,
    comment: string)

  /** The values `openFieldModal` puts in the dialog (script.js:243-258). The custom
      type box is only written for a non-standard type; otherwise it keeps
      `previousCustomInput`, whatever it held before. */
  function FormFor(cfg: Config, previousCustomInput: string): FieldForm
  {
    var base := BaseType(cfg.typeName);
    if IsStandardType(base) then
      FieldForm(base, previousCustomInput, cfg.required, cfg.maxLength, cfg.jsonAlias, cfg.comment)
    else
      FieldForm("Others", if cfg.customType != "" then cfg.customType else base,
                cfg.required, cfg.maxLength, cfg.jsonAlias, cfg.comment)
  }

  /** The type the dialog chose: the trimmed custom type for "Others", else the selection. */
  function ChosenType(form: FieldForm): string
  {
    if form.selectedType == "Others" then Trim(form.customTypeInput) else form.selectedType
  }

  /** `saveFieldConfiguration` on one record (script.js:278-294). `None` is the
      "Custom type cannot be empty" abort, which leaves the record as it was. */
  function SaveConfig(cfg: Config, form: FieldForm): (r: Option<Config>)
    ensures r.None? <==> form.selectedType == "Others" && Trim(form.customTypeInput) == ""
    ensures r.Some? ==> r.value.name == cfg.name
    ensures r.Some? ==> r.value.required == form.required && r.value.maxLength == form.maxLength
    ensures r.Some? ==> r.value.jsonAlias == form.jsonAlias && r.value.comment == form.comment
    ensures r.Some? ==> r.value.customType == (if form.selectedType == "Others" then ChosenType(form) else "")
    ensures r.Some? && IsListType(cfg.typeName) ==> r.value.typeName == ListOf(ChosenType(form))
    ensures r.Some? && IsListType(cfg.typeName) ==>
              IsListType(r.value.typeName) && BaseType(r.value.typeName) == ChosenType(form)
    ensures r.Some? && !IsListType(cfg.typeName) ==> r.value.typeName == ChosenType(form)
    ensures r.Some? && !IsListType(ChosenType(form)) ==> (IsListType(r.value.typeName) <==> IsListType(cfg.typeName))
  {
    var chosen := ChosenType(form);
    if form.selectedType == "Others" && chosen == "" then None
    else
      BaseOfListOf(chosen);
      Some(Config(
        cfg.name,
        if IsListType(cfg.typeName) then ListOf(chosen) else chosen,
        form.required,
        form.maxLength,
        form.jsonAlias,
        form.comment,
        if form.selectedType == "Others" then chosen else ""))
  }

  /** A record's custom type is empty or is its element type; default records are, and
      saving keeps it so unless the custom type typed in itself begins with `List<`. */
  predicate Consistent(cfg: Config)
  {
    cfg.customType == "" || cfg.customType == BaseType(cfg.typeName)
  }

  lemma SaveKeepsConsistent(cfg: Config, form: FieldForm)
    requires SaveConfig(cfg, form).Some? && !IsListType(ChosenType(form))
    ensures Consistent(SaveConfig(cfg, form).value)
  {
    BaseOfListOf(ChosenType(form));
  }

  /** A list type is exactly `List<` + its element type + `>`. */
  predicate WellFormedType(t: string)
  {
    IsListType(t) ==> t == ListOf(BaseType(t))
  }

  /** A custom type that is itself a list type nests one level deeper each time the dialog
      is opened and saved untouched: `List<Foo>` typed on a `String` field becomes
      `List<List<Foo>>` on the next open-and-save. */
  lemma CustomListTypeNests()
    ensures var form := FieldForm("Others", "List<Foo>", false, "", "", "");
            var first := SaveConfig(Config("f", "String", false, "", "", "", ""), form);
            first == Some(Config("f", "List<Foo>", false, "", "", "", "List<Foo>"))
            && SaveConfig(first.value, FormFor(first.value, "")) == Some(first.value.(typeName := "List<List<Foo>>"))
  {
    TrimOfTrimmed("List<Foo>");
    var cfg := Config("f", "List<Foo>", false, "", "", "", "List<Foo>");
    assert !IsListType("String");
    BaseOfListOf("Foo");
    assert cfg.typeName == ListOf("Foo");
    assert !IsStandardType("Foo");
    assert FormFor(cfg, "") == FieldForm("Others", "List<Foo>", false, "", "", "");
    assert ListOf("List<Foo>") == "List<List<Foo>>";
  }

  /** Opening the field dialog and saving it untouched leaves the record as it was, except
      that the custom type is made to agree with the selector: cleared for a standard type,
      set to the element type otherwise. */
  lemma OpenThenSave(cfg: Config, previousCustomInput: string)
    requires WellFormedType(cfg.typeName) && Consistent(cfg)
    requires !IsStandardType(BaseType(cfg.typeName)) ==>
               BaseType(cfg.typeName) != "" && Trim(BaseType(cfg.typeName)) == BaseType(cfg.typeName)
    ensures SaveConfig(cfg, FormFor(cfg, previousCustomInput)) ==
              Some(cfg.(customType := if IsStandardType(BaseType(cfg.typeName)) then "" else BaseType(cfg.typeName)))
  {
    var base := BaseType(cfg.typeName);
    var form := FormFor(cfg, previousCustomInput);
    if IsStandardType(base) {
      assert form.selectedType == base && base != "Others";
    } else {
      assert form.selectedType == "Others" && form.customTypeInput == base;
    }
    assert ChosenType(form) == base;
    var t := if IsListType(cfg.typeName) then ListOf(base) else base;
    assert t == cfg.typeName;
    assert SaveConfig(cfg, form) == Some(Config(cfg.name, t, cfg.required, cfg.maxLength, cfg.jsonAlias, cfg.comment,
                                                if IsStandardType(base) then "" else base));
  }

  /** Saving the same dialog twice is the same as saving it once, unless the chosen type
      itself begins with `List<`. */
  lemma SaveIdempotent(cfg: Config, form: FieldForm)
    requires SaveConfig(cfg, form).Some? && !IsListType(ChosenType(form))
    ensures SaveConfig(SaveConfig(cfg, form).value, form) == SaveConfig(cfg, form)
  {
  }

  // ----- Default records for every field of an extraction (script.js:167-179) -----

  /** Default records for the first `n` fields of class `cls`, each added only when its
      path has no record yet. */
  function AddFieldDefaults(configs: map<string, Config>, cls: string, fs: seq<FieldDescriptor>, n: nat): map<string, Config>
    requires n <= |fs|
  {
    if n == 0 then configs
    else
      var m := AddFieldDefaults(configs, cls, fs, n - 1);
      var p := Path(cls, fs[n - 1].name);
      if p in m then m else m[p := DefaultConfig(fs[n - 1])]
  }

  /** The records of one class keep the old ones as they were ... */
  lemma {:induction false} FieldDefaultsKeep(configs: map<string, Config>, cls: string, fs: seq<FieldDescriptor>, n: nat)
    requires n <= |fs|
    ensures forall p :: p in configs ==> p in AddFieldDefaults(configs, cls, fs, n) && AddFieldDefaults(configs, cls, fs, n)[p] == configs[p]
  {
    if n > 0 {
      FieldDefaultsKeep(configs, cls, fs, n - 1);
    }
  }

  /** ... give each of the first `n` fields one ... */
  lemma {:induction false} FieldDefaultsAdd(configs: map<string, Config>, cls: string, fs: seq<FieldDescriptor>, n: nat)
    requires n <= |fs|
    ensures forall j :: 0 <= j < n ==> Path(cls, fs[j].name) in AddFieldDefaults(configs, cls, fs, n)
  {
    if n > 0 {
      FieldDefaultsAdd(configs, cls, fs, n - 1);
    }
  }

  /** ... and add nothing but defaults for those fields. */
  lemma {:induction false} FieldDefaultsOnly(configs: map<string, Config>, cls: string, fs: seq<FieldDescriptor>, n: nat, p: string)
    requires n <= |fs|
    requires p in AddFieldDefaults(configs, cls, fs, n) && p !in configs
    ensures exists j :: 0 <= j < n && p == Path(cls, fs[j].name) && AddFieldDefaults(configs, cls, fs, n)[p] == DefaultConfig(fs[j])
  {
    var m := AddFieldDefaults(configs, cls, fs, n - 1);
    if p in m {
      FieldDefaultsOnly(configs, cls, fs, n - 1, p);
      var j :| 0 <= j < n - 1 && p == Path(cls, fs[j].name) && m[p] == DefaultConfig(fs[j]);
      assert AddFieldDefaults(configs, cls, fs, n)[p] == m[p];
    } else {
      assert p == Path(cls, fs[n - 1].name);
    }
  }

  /** Default records for every field of the first `k` classes, in key order. */
  function AddDefaults(configs: map<string, Config>, c: Classes, k: nat): map<string, Config>
    requires Valid(c) && k <= |c.names|
  {
    if k == 0 then configs
    else
      var m := AddDefaults(configs, c, k - 1);
      var n := c.names[k - 1];
      AddFieldDefaults(m, n, c.fields[n], |c.fields[n]|)
  }

  /** The records after the first `k` classes keep the old ones as they were ... */
  lemma {:induction false} DefaultsKeep(configs: map<string, Config>, c: Classes, k: nat)
    requires Valid(c) && k <= |c.names|
    ensures forall p :: p in configs ==> p in AddDefaults(configs, c, k) && AddDefaults(configs, c, k)[p] == configs[p]
  {
    if k > 0 {
      DefaultsKeep(configs, c, k - 1);
      var n := c.names[k - 1];
      FieldDefaultsKeep(AddDefaults(configs, c, k - 1), n, c.fields[n], |c.fields[n]|);
    }
  }

  /** ... give every field of those classes one ... */
  lemma {:induction false} DefaultsAdd(configs: map<string, Config>, c: Classes, k: nat)
    requires Valid(c) && k <= |c.names|
    ensures forall i, j :: 0 <= i < k && 0 <= j < |c.fields[c.names[i]]| ==>
              Path(c.names[i], c.fields[c.names[i]][j].name) in AddDefaults(configs, c, k)
  {
    if k > 0 {
      DefaultsAdd(configs, c, k - 1);
      var m := AddDefaults(configs, c, k - 1);
      var n := c.names[k - 1];
      FieldDefaultsKeep(m, n, c.fields[n], |c.fields[n]|);
      FieldDefaultsAdd(m, n, c.fields[n], |c.fields[n]|);
    }
  }

  /** ... and add nothing but defaults for fields of the dictionary. */
  lemma {:induction false} DefaultsOnly(configs: map<string, Config>, c: Classes, k: nat, p: string)
    requires Valid(c) && k <= |c.names|
    requires p in AddDefaults(configs, c, k) && p !in configs
    ensures exists n, j :: n in c.fields && 0 <= j < |c.fields[n]| &&
              p == Path(n, c.fields[n][j].name) && AddDefaults(configs, c, k)[p] == DefaultConfig(c.fields[n][j])
  {
    var m := AddDefaults(configs, c, k - 1);
    var n := c.names[k - 1];
    if p in m {
      DefaultsOnly(configs, c, k - 1, p);
      FieldDefaultsKeep(m, n, c.fields[n], |c.fields[n]|);
    } else {
      FieldDefaultsOnly(m, n, c.fields[n], |c.fields[n]|, p);
    }
  }

  /** Every record `AddDefaults` keeps or adds, for the whole dictionary. */
  ghost predicate Covers(configs: map<string, Config>, c: Classes)
  {
    forall n, j :: n in c.fields && 0 <= j < |c.fields[n]| ==> Path(n, c.fields[n][j].name) in configs
  }

  lemma DefaultsCover(configs: map<string, Config>, c: Classes)
    requires Valid(c)
    ensures Covers(AddDefaults(configs, c, |c.names|), c)
  {
    DefaultsAdd(configs, c, |c.names|);
    forall n, j | n in c.fields && 0 <= j < |c.fields[n]|
      ensures Path(n, c.fields[n][j].name) in AddDefaults(configs, c, |c.names|)
    {
      var i :| 0 <= i < |c.names| && c.names[i] == n;
    }
  }
}
