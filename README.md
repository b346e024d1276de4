# DTO generator core, modelled in Dafny

DTOgenerator is a single-page tool. It turns a sample JSON message into Java DTO classes,
one per nested object. The JSON has a `TRANRQ` (request) or `TRANRS` (response) root
object. The page works on a handful of page-wide variables (`script.js`):

- **Generate.** Pressing *Generate* does the following:
  - checks the program name;
  - picks the root object;
  - names the root class `<program>Tranrq` / `<program>Tranrs`;
  - rebuilds `fieldConfigurations`, a dictionary of one override record per field
    (`Class.field` → type, required, max length, JSON alias, comment, custom type);
  - prints every class.
- **Field dialog.** The dialog fills its controls from a field's record. Saving it
  rewrites the record and prints all classes again.

The model follows the program's structure, one module per concern:

| module | file | what it holds |
|---|---|---|
| `Text` | text.dfy | The JavaScript string operations the core relies on: `capitalize`, `trim`, `split`, `startsWith`, `parseInt`, number printing. Each is written out over `seq<char>`. |
| `StringOrder` | order.dfy | The default `Array.prototype.sort` order on strings, proved a strict total order. `SortSet` is the sort of the import set. |
| `Json` | json.dfy | Parsed JSON values. An object is a sequence of members in key order. |
| `Schema` | schema.dfy | What `extractClasses` computes, as functions: the class dictionary, the type of each field, and the properties of the walk. |
| `Extraction` | extractor.dfy | `extractClasses` as the source writes it: an object holding the `classes` dictionary, with the recursive `processObject` updating it in place. |
| `FieldConfig` | config.dfy | The override records: the default record, the values the dialog opens with, the rewrite on save. |
| `Render` | render.dfy | `generateClass`: the import set, its sorted header, and each field's annotations and declaration. Two loops, proved against `ClassText`. |
| `Session` | session.dfy | The page state as a class `Page`, with the *Generate* handler, `openFieldModal` and `saveFieldConfiguration`. It also holds root selection and the output made by concatenating every class. |

Where the behaviour is easy to misread, the model follows script.js:

- **Root selection** uses JavaScript truthiness (`if (jsonObj.TRANRQ)`). A root that is
  `0`, `""`, `false` or `null` is skipped. A truthy non-object root is accepted.
- **The program name is checked first.** It is checked before the JSON is read, so an
  empty name wins over malformed JSON. The second, later name check (script.js:82-85)
  can never fail. The model therefore has no path for it.
- **The current field outlives the dialog.** `closeFieldModal` does not reset
  `currentField`, so the last field opened stays current after the dialog closes.
- **A blank custom type is rejected before the record is used.** The save handler
  reads the record without using it, then alerts on "Others" with a blank custom type.
  So that alert comes first even when the current field has no record.
- **Class names can coincide.** A list of objects under the key `List`, or an object under
  the empty key, gets the enclosing class's own name. Its fields are then appended to
  that class.
- **A list-typed custom type nests.** Typing `List<Foo>` as the custom type of a plain
  field gives the type `List<Foo>`. Opening and saving the dialog again then wraps it once
  more, to `List<List<Foo>>`.
- **The generated header imports by the whole declared type.** `generateClass` is
  modelled with that lookup. The element-type lookup appears only as the corrected rule
  (see Findings).

## Model

| member | source | states |
|---|---|---|
| Text.Capitalize | script.js:142-144 | Same length. The first character is no longer a lower-case letter and is the same letter ignoring ASCII case. The rest is unchanged. A name that already starts with a non-lower-case character is returned as is. |
| Text.CapitalizeIdempotent | script.js:142-144 | Capitalizing twice is the same as capitalizing once. |
| Text.TrimStart | script.js:55 | The result is a suffix of the input that does not start with whitespace, and every character dropped before it is whitespace. |
| Text.TrimEnd | script.js:55 | The result is a prefix of the input that does not end with whitespace, and every character dropped after it is whitespace. |
| Text.Trim | script.js:55 | The result is the slice of the input between a run of leading whitespace and a run of trailing whitespace, and neither starts nor ends with whitespace. |
| Text.TrimmedSlice | script.js:55 | A prefix of a suffix of the input, with whitespace after it in the suffix, is a slice of the input with whitespace after it. |
| Text.TrimOfTrimmed | script.js:279 | A string without leading or trailing whitespace is its own trim, so trimming a custom type twice is the same as once. |
| Text.TrimIdempotent | script.js:279 | Trimming twice is the same as trimming once. |
| Text.Split | script.js:356 | `split(',')` gives one more piece than there are separators. No piece contains the separator. Joining the pieces with the separator gives back the input. |
| Text.Count | script.js:356 | The number of separators in a string: at most its length, and zero exactly when the separator does not occur. |
| Text.SplitPrefix | script.js:356 | A piece without the separator, followed by the separator, splits off as the first piece. |
| Text.SplitWhole | script.js:356 | A string without the separator splits into itself alone. |
| Text.SplitJoin | script.js:356 | Joining pieces that lack the separator and splitting again gives the pieces back, empty ones included. |
| Text.NatToString | script.js:368 | A number prints as a non-empty string of decimal digits, with no leading zero unless it is 0. |
| Text.ParseIntOfNatToString | script.js:367 | `parseInt` reads a printed natural number back as that number. |
| Text.NinesText | script.js:366-367 | 10^n − 1 prints as exactly n nines. |
| Text.LeadingDigits | script.js:367 | `parseInt` stops at the first character that is not a digit of the radix, and every character before it is one. |
| Text.ParseInt | script.js:367 | `parseInt` without a radix skips leading whitespace and reads an optional sign and then digits. It gives no number (NaN) when no digit follows. |
| StringOrder.BelowIrreflexive | script.js:344 | No import line sorts before itself. |
| StringOrder.Below | script.js:344 | The default `sort` order on strings: code unit by code unit, a proper prefix first. |
| StringOrder.BelowTransitive | script.js:344 | The sort order is transitive. |
| StringOrder.BelowTotal | script.js:344 | Any two distinct lines are ordered one way or the other. |
| StringOrder.BelowAsymmetric | script.js:344 | Two lines are never each before the other. |
| StringOrder.Insert | script.js:344 | Inserting into a sorted list keeps it sorted and adds exactly the new line. |
| StringOrder.SortedSeq | script.js:344 | The sorted listing of a set is sorted and holds exactly the set's members. |
| StringOrder.SortedUnique | script.js:344 | Two sorted lists with the same members are equal, so the sorted header is determined by the import set alone. |
| StringOrder.SortSet | script.js:344 | `Array.from(imports).sort()` returns the unique sorted listing of the set. |
| Json.Get | script.js:72-76 | A lookup finds a value exactly when the document is an object with a member of that key. The value found belongs to such a member. |
| Json.EntryKey | script.js:210-211 | The i-th key `for…in` yields: an object's own member key, or an array index printed in decimal. |
| Json.EntryValue | script.js:210-211 | `obj[key]` for the i-th key: the member's value, or the array's i-th item. |
| Schema.ProcessObject | script.js:205-234 | Processing an object registers its class and never drops a class. |
| Schema.ObjectGrows | script.js:205-234 | Processing an object only appends fields, and only to its own class and to classes named after it. A well-formed dictionary stays well-formed. |
| Schema.RegisterGrows | script.js:206-208 | Registering a class makes it present and keeps every existing class and its fields as they were. The dictionary stays well-formed. |
| Schema.Register | script.js:206-208 | Registering adds the class with no fields when it is absent, and otherwise changes nothing. |
| Schema.Push | script.js:218-231 | Pushing a descriptor appends it to the end of one class's field list. |
| Schema.Extract | script.js:202-238 | The result contains the root class. Its names are distinct and are exactly its keys. |
| Schema.ExtractNamesRooted | script.js:216-226 | Every class name starts with the root class name. |
| Schema.ExtractClosed | script.js:215-236 | Every field typed by a generated class refers to a class that is in the dictionary. |
| Schema.FieldsInKeyOrder | script.js:210-232 | When no object sits under the empty key and no list of objects under the key `List` or the empty key, the class gets exactly one field per key of its object, in key order, after the fields it already had. |
| Schema.FieldInference | script.js:214-231 | Under the same condition on keys (no object under the empty key, no list of objects under `List` or the empty key), the root class has one field per key, and the field for each key has its inferred type:<br>• a non-empty array of objects becomes a list of the class `<cls><Key minus List>`;<br>• any other array becomes `List<String>`;<br>• an object becomes the class `<cls><Key>`;<br>• an integer becomes Integer, any other number Double;<br>• a boolean becomes Boolean;<br>• anything else becomes String. |
| Schema.DescriptorShape | script.js:214-231 | The same inference for one key and value. |
| Schema.ScalarType | script.js:228-230 | An integer is typed Integer, any other number Double, a boolean Boolean, anything else String. |
| Schema.Descriptor | script.js:214-231 | The descriptor pushed for one key: a list of the item class, a list of String, the nested class, or the scalar type. |
| Schema.ChildNamedAsParent | script.js:216-224 | A list of objects under the key `List`, or an object under the empty key, is typed with the enclosing class's own name. |
| Schema.FieldAppendsOne | script.js:218-231 | Unless the value is an object under the empty key or a list of objects under `List` or the empty key, handling one key appends exactly its descriptor to the current class. |
| Schema.ProcessField | script.js:211-232 | Handling one key keeps the current class and every existing class in the dictionary. |
| Schema.ProcessEntries | script.js:210-233 | The first n rounds of the `for…in` loop keep the current class and every existing class in the dictionary. |
| Schema.ProcessEntry | script.js:210-232 | One round of the loop handles the i-th key and its value, and keeps the current class and every existing class. |
| Schema.ChildStaysRegistered | script.js:218-226 | The class a field refers to is in the dictionary once its key has been handled. |
| Schema.OnlyFirstItemSampled | script.js:215-219 | Only the first element of an array is inspected: arrays that share it produce the same dictionary. |
| Extraction.Extractor.constructor | script.js:203 | The dictionary starts empty. |
| Extraction.Extractor.ProcessObject | script.js:205-234 | The in-place recursive walk leaves the dictionary equal to `Schema.ProcessObject` of the old one. |
| Extraction.ExtractClasses | script.js:202-238 | `extractClasses` returns exactly `Schema.Extract`. |
| FieldConfig.BaseOfListOf | script.js:284-287 | The element type of `List<t>` is `t`. |
| FieldConfig.DefaultConfig | script.js:169-179 | A new record carries the field's name, with every constraint off. Its type is the inferred type, wrapped as a list exactly for list fields. |
| FieldConfig.IsStandardType | script.js:146-149 | The nine types the dialog's selector offers. |
| FieldConfig.BaseType | script.js:244 | The element type: characters 5 to the next-to-last of a type starting `List<`, any other type unchanged. |
| FieldConfig.SaveConfig | script.js:278-294 | Saving aborts exactly when "Others" is chosen with a blank custom type. Otherwise the record takes the dialog's values and keeps its name. The type becomes the chosen type, still a list if it was one. The custom type is kept only for "Others". |
| FieldConfig.ChosenType | script.js:276-279 | The trimmed custom type under "Others", the selection otherwise. |
| FieldConfig.SaveKeepsConsistent | script.js:284-289 | When the chosen type does not start with `List<`, after a save the custom type is empty or equal to the record's element type. |
| FieldConfig.OpenThenSave | script.js:240-294 | For a record whose list type is exactly `List<` + element type + `>`, whose custom type is empty or its element type, and whose non-standard element type is non-empty and has no surrounding whitespace: opening the dialog and saving it untouched restores the record, except that the custom type is cleared for a standard type (`isStandardType`) and set to the element type for any other. |
| FieldConfig.FormFor | script.js:243-258 | The dialog shows a standard element type in the selector. Any other type shows as "Others", with the record's custom type or else the element type. The other controls show the record's values. |
| FieldConfig.CustomListTypeNests | script.js:278-294 | Saving the custom type `List<Foo>` on a String field gives `List<Foo>`. Opening and saving again gives `List<List<Foo>>`. |
| FieldConfig.SaveIdempotent | script.js:278-294 | When the chosen type does not start with `List<`, saving the same dialog twice equals saving it once. |
| FieldConfig.FieldDefaultsKeep | script.js:167-179 | Filling one class's defaults keeps every existing record unchanged. |
| FieldConfig.AddFieldDefaults | script.js:167-179 | The inner loop over one class's fields: each field's path gets its default record when it has none, in field order. |
| FieldConfig.FieldDefaultsAdd | script.js:167-179 | Filling one class's defaults gives every field of the class a record. |
| FieldConfig.FieldDefaultsOnly | script.js:167-179 | Every record that filling one class's defaults adds is the default for one of its fields. |
| FieldConfig.DefaultsKeep | script.js:155-179 | Filling the defaults of every class keeps existing records unchanged. |
| FieldConfig.AddDefaults | script.js:155-179 | The outer loop: the inner loop for each class, in dictionary order. |
| FieldConfig.DefaultsAdd | script.js:155-179 | Filling the defaults of every class gives every field of those classes a record. |
| FieldConfig.DefaultsOnly | script.js:155-179 | Every record added while filling the defaults of every class is the default for a field of the dictionary. |
| FieldConfig.DefaultsCover | script.js:155-179 | After the defaults are filled, every field of the dictionary has a record. |
| Render.Aliases | script.js:356 | Alias i is piece i of `split(',')`, trimmed. So there is one more alias than there are commas, no alias contains a comma, and none starts or ends with whitespace. |
| Render.QuotedList | script.js:356 | The aliases, each in double quotes, joined with `, `. |
| Render.AliasesOfJoined | script.js:356 | Aliases without surrounding whitespace, joined with commas, are read back one by one, empty ones included. |
| Render.AliasesOfTrimmed | script.js:356 | When no comma-separated piece has surrounding whitespace, the aliases are the pieces. |
| Render.RenderAllAppend | script.js:353-372 | Printing two runs of annotations is printing each in turn. |
| Render.CollectImports | script.js:314-342 | The first loop's set holds the four base imports plus every field's imports, the type import looked up by the whole declared type as written. |
| Render.AddFieldImports | script.js:325-341 | One round of the first loop adds exactly the field's imports. The type import is chosen by comparing the whole declared type, so a list type gets none (see Findings). |
| Render.ValidationPackage | script.js:311-313 | Java version 17 selects `jakarta.validation.constraints`, any other version `javax.validation.constraints`. |
| Render.FieldImports | script.js:325-341 | A field's imports: alias, required and length constraints, the type import under the chosen lookup, and `java.util.List` for a list type. |
| Render.ImportsOf | script.js:314-342 | The baseline imports and those of the first n fields, under the chosen lookup. |
| Render.AppendField | script.js:353-375 | One round of the second loop appends exactly the field's annotations and declaration. |
| Render.FieldText | script.js:353-375 | A field's annotations, printed in order, then its declaration with the camel-case name. |
| Render.Declaration | script.js:375 | `private`, the record's type, the camel-case name and `;`, then a blank line. |
| Render.Annotations | script.js:353-372 | The annotations of a field in the order they are printed: doc comment, `@JsonProperty`, `@JsonAlias`, the required constraint, the length constraint. |
| Render.RenderAnnotation | script.js:353-372 | The printed line of each annotation, with the field name and record values quoted where the source quotes them. |
| Render.AppendFields | script.js:349-376 | The second loop appends the fields' texts in field order. |
| Render.GenerateClass | script.js:310-379 | The method returns the class text: the imports as written, sorted, then the head, every field and the closing brace. |
| Render.Header | script.js:344-347 | The sorted imports as written, joined by newlines, then `@Data`, the class line and the serial version field. |
| Render.ClassText | script.js:310-379 | The header, then every field's text in field order, then the closing brace. |
| Render.UnionUpToMembers | script.js:321-342 | A line is in the union of the first n per-field sets exactly when some field among them adds it. |
| Render.ImportsOfMembers | script.js:314-342 | Under either lookup, a line is imported exactly when it is a base import or some field adds it. |
| Render.FieldImportsExact | script.js:325-375 | With the corrected lookup, a field adds an import exactly when it needs one of the imports the generator knows: an annotation's, `java.util.List` for a list, or one of the four typed imports for its type or the element type of one `List<…>` level (JsonProperty comes from the base set). |
| Render.HeaderImportsExact | script.js:314-344 | With the corrected lookup, the class header imports a line exactly when it is a base import or some field needs it in that sense: annotation imports, `java.util.List`, and the four typed imports one `List<…>` level deep. |
| Render.HeaderLines | script.js:314-344 | Under either lookup, the header's lines are sorted, distinct, and include the four base imports. |
| Render.ListImportOfField | script.js:341 | Under either lookup, a field asks for `java.util.List` exactly when its type is a list. |
| Render.ListImportIff | script.js:341 | Under either lookup, a class imports `java.util.List` exactly when one of its fields has a list type. |
| Render.ElementTypeImported | script.js:337-340 | With the corrected lookup, a field whose element type needs an import gets it, lists included. |
| Render.TypeImport | script.js:337-340 | `BigDecimal`, `LocalDate`, `LocalDateTime` and `Timestamp` each have their one import line; no other type has one. |
| Render.ListTypeNotImported | script.js:337-340 | No type starting `List<` is one of the four types with an import of their own. |
| Render.AsWrittenWithinCorrected | script.js:337-340 | The as-written lookup adds a subset of what the corrected lookup adds. It misses only the element type's import of a list type. |
| Render.ListOfBigDecimalImport | script.js:337 | A `List<BigDecimal>` field adds `java.math.BigDecimal` under the corrected lookup but not under the lookup as written. |
| Render.AsWrittenAgreesOffLists | script.js:337-340 | For a non-list type, the as-written and corrected lookups add the same imports. |
| Render.AsWrittenHeaderGap | script.js:314-342 | Every line the as-written header imports is also imported under the corrected lookup. Each line it misses is the element type's import of some list field. |
| Render.AsWrittenImportsNeeded | script.js:314-342 | Every line the as-written header imports is a base import or needed by some field. |
| Render.AsWrittenExactOffLists | script.js:314-342 | When no field has a list type, the as-written header is the corrected one, so it imports exactly what the class needs. |
| Render.ListOfBigDecimalHeader | script.js:314-344 | Class `C` with one field `amounts` saved as `List<BigDecimal>` needs `java.math.BigDecimal`, yet its as-written header does not import it. |
| Render.InAnnotations | script.js:353-372 | A field carries an annotation exactly when the record's condition for it holds. |
| Render.NamingAnnotations | script.js:353-358 | Every field has `@JsonProperty` with its JSON key. It has a doc comment exactly when the comment is non-empty, and `@JsonAlias` exactly when the alias text is. |
| Render.RequiredAnnotations | script.js:359-363 | A required String gets `@NotBlank`. Any other required type gets `@NotNull`. An optional field gets neither. |
| Render.LengthAnnotations | script.js:364-372 | A max length on Integer, Long, Double or BigDecimal gives `@Max`. On any other type it gives `@Size`. No max length gives neither. |
| Render.MaxOfDigits | script.js:366-368 | A max length of d digits gives the largest d-digit number, d nines. |
| Render.MaxOfParsed | script.js:367 | Whatever text `parseInt` reads as n gives 10^n − 1. |
| Render.MaxValueText | script.js:367 | The printed `Math.pow(10, parseInt(maxLength)) - 1`: `NaN` without a number, n nines for n, `-0.` and -n nines for a negative n. |
| Render.LengthLines | script.js:367-370 | The `@Max` line states the nines in both its message and its value. The `@Size` line states the limit as typed. |
| Render.ReplaceKeepsHead | script.js:374 | The underscore rewrite keeps a first character that is not an underscore. |
| Render.ReplaceLeavesNoUnderscoreLetter | script.js:374 | If the key has no double underscore, the identifier has no underscore before a letter. |
| Render.ReplaceIdentity | script.js:374 | A name with no underscore before a letter is left alone. |
| Render.LowerFirst | script.js:374 | A first upper-case ASCII letter is lowered. Any other name is unchanged. |
| Render.LowerFirstUndoesCapitalize | script.js:142-144 | Lowering the first letter undoes `capitalize` on a name that starts with a lower-case letter. |
| Render.ReplaceUnderscores | script.js:374 | Each underscore followed by an ASCII letter becomes that letter upper-cased, left to right. |
| Render.CamelCase | script.js:374 | The first letter is lowered, then the underscores are replaced. |
| Render.CamelCaseShape | script.js:374 | For a key with no double underscore, the Java name has no underscore before a letter. If the key does not start with an underscore, the name also does not start with an upper-case letter (`_ab` gives `Ab`). |
| Render.CamelCaseIdempotent | script.js:374 | For a key with no double underscore that does not start with an underscore, applying the lower-camel-case conversion twice is the same as once. |
| Session.SelectRoot | script.js:72-81 | A root is found exactly when `TRANRQ` or `TRANRS` is truthy. It is a request exactly when `TRANRQ` is. The chosen structure is truthy and is that member's value. |
| Session.Truthy | script.js:72-75 | JavaScript truthiness of a parsed JSON value. |
| Session.TruthyAt | script.js:72-75 | The document has the key and its value is truthy. |
| Session.Admit | script.js:54-85 | The *Generate* outcomes, each exactly under its own condition: blank name, unreadable JSON, no root, otherwise the selected root. |
| Session.RootClassNameParts | script.js:87 | The root class name starts with the trimmed program name. It ends in `Tranrq` exactly for a request and in `Tranrs` exactly for a response. |
| Session.RootClassName | script.js:87 | The trimmed program name followed by `Tranrq` for a request or `Tranrs` for a response. |
| Session.RootClassNameInjective | script.js:87 | Different (trimmed name, direction) pairs give different root class names. |
| Session.CoversClass | script.js:321-351 | When every field has a record, each class's lookups succeed. |
| Session.ClassTexts | script.js:94-95 | One text per class. |
| Session.Output | script.js:93-96 | The generated text: every class's text followed by a blank line, concatenated in dictionary order. |
| Session.GenerateAll | script.js:92-96 | Extract, then concatenate every class's text in dictionary order. |
| Session.AppendClasses | script.js:93-96 | The loop's output is the classes' texts, each followed by a blank line, in order. |
| Session.OutputHasEveryClass | script.js:93-96 | Each class's full text appears in the output at its own offset, followed by a blank line. |
| Session.AddClassDefaults | script.js:167-179 | The inner loop adds a default record for each field of the class that has none. |
| Session.AddDefaultRecords | script.js:155-179 | The outer loop does so for every class, in dictionary order. |
| Session.DisplayStructure | script.js:151-200 | `displayStructure` fills the defaults of the extracted dictionary, after which every field has a record. |
| Session.AddDefaultsKeepsCovering | script.js:169-179 | Re-displaying a structure whose fields all have records changes no record, so saved settings survive the redisplay. |
| Session.CoversAfterUpdate | script.js:284-294 | Rewriting an existing record keeps every field covered. |
| Session.Page.constructor | script.js:33-37 | The page starts with no structure, no records, no current field and no output. |
| Session.Page.Generate | script.js:62-101 | On a failed check, the handler returns that error and changes nothing. Otherwise it:<br>• sets the structure, the direction and the root class name;<br>• resets the records to the defaults of the extracted dictionary;<br>• sets the output to every class's text;<br>• leaves the current field unchanged. |
| Session.Page.Load | script.js:72-97 | Loading a selected root sets the generated state described for `Generate`. |
| Session.Page.WriteOutput | script.js:300-307 | The output becomes every class's text for the current structure and records. |
| Session.Page.OpenFieldModal | script.js:240-258 | The field becomes current. The dialog opens with the values of its record (no dialog if it has none). |
| Session.Page.SaveFieldConfiguration | script.js:273-307 | Without a current field nothing changes and no error is given. Then a blank custom type under "Others" gives the "cannot be empty" error and changes nothing, whether or not the field has a record. Then a field with no record gives the missing-record error and changes nothing. Otherwise:<br>• only the current field's record changes, to the saved record;<br>• the output is regenerated when a structure and root name exist;<br>• otherwise the output is left as it was. |
| Session.Page.Store | script.js:284-307 | The record is replaced, and the output is regenerated exactly when a structure and root class name exist. |

## Left out

- **The page and its widgets.**
  - Not modelled: the Ace editors, the DOM, the structure panel's rows and buttons, the
    modal's CSS classes, `closeFieldModal` (which only hides the dialog), the copy button,
    the clipboard and the beautify button.
  - What the page hands to the core appears as parameters. These are the program name
    box, the field dialog's controls (`FieldForm`, the custom-type box's earlier text) and
    the Java version selector's value.
- **Parsing.** `JSON.parse` is not modelled.
  - The *Generate* handler receives its result as `Option<JsonValue>`: `None` is a parse
    error.
  - A parse of `null` makes the source throw while reading `TRANRQ`. The model reports
    it as the missing-root error instead. Both end in the same `catch`, with a different
    message, and the page is unchanged either way.
- **Alerts.** `alert` calls are modelled as returned `Error` values.
- **Key order.** Object members are kept in document order. The model does not capture
  two things that depend on JavaScript's enumeration order and duplicate handling:
  - `for…in` lists integer-like keys first, in numeric order;
  - `JSON.parse` keeps one member per key, with the last value. The model's walk visits
    every occurrence of a duplicated key, and `Json.Get` finds the first.
- **String roots.** Root selection accepts any truthy root. Arrays are walked by index,
  as `for…in` does, and numbers and booleans have no keys in either. A truthy string
  root, however, has no keys in the model, where `for…in` would visit its character
  positions.
- **Numbers.** Numbers are unbounded integers plus a non-integer tag; floating point is
  not modelled.
- Render.MaxOfDigits: states d nines for every d. JavaScript's `Math.pow(10, d) - 1` is
  exact only up to 15 digits. From 16 digits it rounds, from 21 digits it prints in
  exponent notation (`1e+21`), and from 309 digits it prints `Infinity`.
- Render.MaxOfParsed: states the exact 10^n − 1. JavaScript computes it in floating
  point, with the same limits as above. A negative n gives the exact −0.99…9 in the
  model, where JavaScript rounds to −1 once n is below about −16.
- Render.MaxValueText: prints the exact 10^n − 1 as n nines, and the exact −0.99…9 for a
  negative n. The text JavaScript prints for `Math.pow(10, n) - 1` differs from 16 digits
  on, where the value is rounded, and from 21 digits on it is in exponent notation. From
  309 digits on JavaScript prints `Infinity`, in the message and the value alike. Below
  about n = −16 JavaScript prints `-1`.
- Render.FieldImportsExact: "needs" covers only the imports the generator knows. A type
  is looked into one `List<…>` level deep, for the four typed names. A nested list such
  as `List<List<BigDecimal>>`, or a custom generic such as `Map<String, LocalDate>`, gets
  no import for the types inside it under either lookup. The Java of such a field does
  not compile.
- Render.HeaderImportsExact: is exact in the same limited sense as
  Render.FieldImportsExact, so nested lists and generic custom types are left without
  their imports.
- Text.Capitalize: upper-cases ASCII letters only. `toUpperCase` also maps non-ASCII
  letters, and can lengthen a string (`ß` becomes `SS`). The root class name and the
  keys of generated classes are therefore exact only for ASCII first letters.
- **Other JavaScript quirks.** Not modelled: prototype keys, getters, `toString`
  coercions, and the structure panel's HTML built from field names.
- **No `@Valid`.** The source emits no `@Valid` on nested objects, so neither does the
  model.

## Findings

| source | as written | input that shows it | evidently intended | confidence | as-written member | corrected member |
|---|---|---|---|---|---|---|
| script.js:337-340 | The type imports (`BigDecimal`, `LocalDate`, `LocalDateTime`, `Timestamp`) are chosen by comparing the whole declared type, so a list type never matches. | Class `C` with one field `amounts` whose record type is `List<BigDecimal>` declares `private List<BigDecimal> amounts;`, but its header imports only `java.util.List`, and the Java does not compile. | Choose the type import by the element type of a list. | not executed | Render.ListOfBigDecimalHeader | Render.ElementTypeImported |
