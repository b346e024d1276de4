/** What `extractClasses` computes (script.js:202-238), as functions: the walk of
    `processObject` over a parsed JSON value, which fills a dictionary from class name
    to the list of field descriptors found for that class. The imperative walk itself is
    `Extraction.Extractor.ProcessObject`, proved equal to these functions. */
module Schema {
  import opened Text
  import opened Json

  /** One entry pushed by `processObject`: `{ name, type, isList }`. */
  datatype FieldDescriptor = FieldDescriptor(name: string, typeName: string, isList: bool)

  /** The `classes` dictionary: its keys in insertion order (the order a later `for…in`
      yields them) and the descriptor list stored under each key. */
  datatype Classes = Classes(names: seq<string>, fields: map<string, seq<FieldDescriptor>>)

  const Empty := Classes([], map[])

  /** The names list holds each key of the dictionary exactly once. */
  ghost predicate Valid(c: Classes)
  {
    && (forall i, j :: 0 <= i < j < |c.names| ==> c.names[i] != c.names[j])
    && (forall n :: n in c.names <==> n in c.fields)
  }

  /** `if (!classes[className]) classes[className] = [];` */
  function Register(c: Classes, cls: string): Classes
  {
    if cls in c.fields then c else Classes(c.names + [cls], c.fields[cls := []])
  }

  /** `classes[className].push(d)`. */
  function Push(c: Classes, cls: string, d: FieldDescriptor): Classes
    requires cls in c.fields
  {
    c.(fields := c.fields[cls := c.fields[cls] + [d]])
  }

  /** The four types a scalar value is given. */
  predicate IsScalarTag(t: string)
  {
    t == "String" || t == "Integer" || t == "Double" || t == "Boolean"
  }

  /** The type of a value that is neither an array nor an object (script.js:228-230). */
  function ScalarType(v: JsonValue): string
  {
    match v
    case JInt(_) => "Integer"
    case JNonInt => "Double"
    case JBool(_) => "Boolean"
    case _ => "String"
  }

  /** `key.endsWith('List') ? key.slice(0, -4) : key`. */
  function StripListSuffix(key: string): string
  {
    if EndsWith(key, "List") then key[..|key| - 4] else key
  }

  /** A non-empty array whose first element is a non-null object (or array). */
  predicate IsListOfObjects(v: JsonValue)
  {
    v.JArray? && |v.items| > 0 && IsObjectLike(v.items[0])
  }

  /** The descriptor the loop body pushes for `key` with value `value` inside class `cls`. */
  function Descriptor(cls: string, key: string, value: JsonValue): FieldDescriptor
  {
    if IsListOfObjects(value) then FieldDescriptor(key, cls + Capitalize(StripListSuffix(key)), true)
    else if value.JArray? then FieldDescriptor(key, "String", true)
    else if value.JObject? then FieldDescriptor(key, cls + Capitalize(key), false)
    else FieldDescriptor(key, ScalarType(value), false)
  }

  /** `r` only adds to `c`: names are appended and field lists only grow at the end. */
  ghost predicate Extends(c: Classes, r: Classes)
  {
    && c.names <= r.names
    && (forall n :: n in c.fields ==> n in r.fields && c.fields[n] <= r.fields[n])
  }

  /** Every class that `r` adds to `c` or changes in it has a name beginning with `cls`. */
  ghost predicate ConfinedTo(c: Classes, r: Classes, cls: string)
  {
    && (forall n :: n in r.fields && n !in c.fields ==> StartsWith(n, cls))
    && (forall n :: n in c.fields && n in r.fields && !StartsWith(n, cls) ==> r.fields[n] == c.fields[n])
  }

  /** `processObject(obj, className)`: registers the class, then handles each key in turn. */
  function ProcessObject(c: Classes, obj: JsonValue, cls: string): (r: Classes)
    decreases obj, 2
    ensures cls in r.fields && c.fields.Keys <= r.fields.Keys
  {
    ProcessEntries(Register(c, cls), obj, cls, EntryCount(obj))
  }

  /** The first `n` rounds of the `for…in` loop of `processObject`. */
  function ProcessEntries(c: Classes, obj: JsonValue, cls: string, n: nat): (r: Classes)
    requires cls in c.fields && n <= EntryCount(obj)
    decreases obj, 1, n
    ensures cls in r.fields && c.fields.Keys <= r.fields.Keys
  {
    if n == 0 then c else ProcessEntry(ProcessEntries(c, obj, cls, n - 1), obj, cls, n - 1)
  }

  /** Round `i` of the `for…in` loop. */
  function ProcessEntry(c: Classes, obj: JsonValue, cls: string, i: nat): (r: Classes)
    requires cls in c.fields && i < EntryCount(obj)
    decreases obj, 0
    ensures cls in r.fields && c.fields.Keys <= r.fields.Keys
  {
    match obj
    case JObject(ms) => ProcessField(c, cls, ms[i].key, ms[i].value)
    case JArray(items) => ProcessField(c, cls, NatToString(i), items[i])
  }

  /** The loop body for one key (script.js:211-232): push the descriptor, then recurse
      into a nested object, or into the first element of a list of objects. */
  function ProcessField(c: Classes, cls: string, key: string, value: JsonValue): (r: Classes)
    requires cls in c.fields
    decreases value, 3
    ensures cls in r.fields && c.fields.Keys <= r.fields.Keys
  {
    var d := Descriptor(cls, key, value);
    var pushed := Push(c, cls, d);
    if IsListOfObjects(value) then ProcessObject(pushed, value.items[0], d.typeName)
    else if value.JObject? then ProcessObject(pushed, value, d.typeName)
    else pushed
  }

  // ----- The walk only adds, and only to classes named after the class it started in -----

  lemma {:induction false} ObjectGrows(c: Classes, obj: JsonValue, cls: string)
    ensures Extends(c, ProcessObject(c, obj, cls)) && ConfinedTo(c, ProcessObject(c, obj, cls), cls)
    ensures Valid(c) ==> Valid(ProcessObject(c, obj, cls))
    decreases obj, 2
  {
    var registered := Register(c, cls);
    RegisterGrows(c, cls);
    EntriesGrow(registered, obj, cls, EntryCount(obj));
    Chain(c, registered, ProcessObject(c, obj, cls), cls);
  }

  lemma {:induction false} EntriesGrow(c: Classes, obj: JsonValue, cls: string, n: nat)
    requires cls in c.fields && n <= EntryCount(obj)
    ensures Extends(c, ProcessEntries(c, obj, cls, n)) && ConfinedTo(c, ProcessEntries(c, obj, cls, n), cls)
    ensures Valid(c) ==> Valid(ProcessEntries(c, obj, cls, n))
    decreases obj, 1, n
  {
    if n == 0 {
      Chain(c, c, c, cls);
    } else {
      var before := ProcessEntries(c, obj, cls, n - 1);
      EntriesGrow(c, obj, cls, n - 1);
      EntryGrows(before, obj, cls, n - 1);
      Chain(c, before, ProcessEntries(c, obj, cls, n), cls);
    }
  }

  lemma {:induction false} EntryGrows(c: Classes, obj: JsonValue, cls: string, i: nat)
    requires cls in c.fields && i < EntryCount(obj)
    ensures Extends(c, ProcessEntry(c, obj, cls, i)) && ConfinedTo(c, ProcessEntry(c, obj, cls, i), cls)
    ensures Valid(c) ==> Valid(ProcessEntry(c, obj, cls, i))
    decreases obj, 0
  {
    match obj
    case JObject(ms) => FieldGrows(c, cls, ms[i].key, ms[i].value);
    case JArray(items) => FieldGrows(c, cls, NatToString(i), items[i]);
  }

  lemma {:induction false} FieldGrows(c: Classes, cls: string, key: string, value: JsonValue)
    requires cls in c.fields
    ensures Extends(c, ProcessField(c, cls, key, value)) && ConfinedTo(c, ProcessField(c, cls, key, value), cls)
    ensures Valid(c) ==> Valid(ProcessField(c, cls, key, value))
    decreases value, 3
  {
    var d := Descriptor(cls, key, value);
    var pushed := Push(c, cls, d);
    PushGrows(c, cls, d);
    if IsListOfObjects(value) || value.JObject? {
      var child := if value.JArray? then value.items[0] else value;
      var r := ProcessObject(pushed, child, d.typeName);
      ObjectGrows(pushed, child, d.typeName);
      assert d.typeName == cls + d.typeName[|cls|..];
      ChildConfined(pushed, r, cls, d.typeName[|cls|..]);
      Chain(c, pushed, r, cls);
    }
  }

  lemma RegisterGrows(c: Classes, cls: string)
    ensures cls in Register(c, cls).fields
    ensures Extends(c, Register(c, cls)) && ConfinedTo(c, Register(c, cls), cls)
    ensures Valid(c) ==> Valid(Register(c, cls))
  {
    assert StartsWith(cls, cls);
  }

  lemma PushGrows(c: Classes, cls: string, d: FieldDescriptor)
    requires cls in c.fields
    ensures Extends(c, Push(c, cls, d)) && ConfinedTo(c, Push(c, cls, d), cls)
    ensures Valid(c) ==> Valid(Push(c, cls, d))
  {
  }

  lemma Chain(a: Classes, b: Classes, c: Classes, cls: string)
    requires a == b || (Extends(a, b) && ConfinedTo(a, b, cls))
    requires b == c || (Extends(b, c) && ConfinedTo(b, c, cls))
    ensures Extends(a, c) && ConfinedTo(a, c, cls)
  {
    forall n | n in a.fields ensures n in c.fields && a.fields[n] <= c.fields[n] {
      assert n in b.fields && a.fields[n] <= b.fields[n];
    }
  }

  lemma ChildConfined(c: Classes, r: Classes, cls: string, suffix: string)
    requires ConfinedTo(c, r, cls + suffix)
    ensures ConfinedTo(c, r, cls)
  {
    forall n | StartsWith(n, cls + suffix) ensures StartsWith(n, cls) {
      StartsWithTrans(n, cls, suffix);
    }
  }

  /** `extractClasses(obj, rootName)`. */
  function Extract(obj: JsonValue, rootName: string): (r: Classes)
    ensures rootName in r.fields
    ensures Valid(r)
  {
    ObjectGrows(Empty, obj, rootName);
    ProcessObject(Empty, obj, rootName)
  }

  /** Every class name of an extraction extends the root class name. */
  lemma ExtractNamesRooted(obj: JsonValue, rootName: string)
    ensures forall n :: n in Extract(obj, rootName).fields ==> StartsWith(n, rootName)
  {
    ObjectGrows(Empty, obj, rootName);
  }

  /** Round `i` of the loop handles the `i`-th key and its value. */
  lemma EntryIsField(c: Classes, obj: JsonValue, cls: string, i: nat)
    requires cls in c.fields && i < EntryCount(obj)
    ensures ProcessEntry(c, obj, cls, i) == ProcessField(c, cls, EntryKey(obj, i), EntryValue(obj, i))
  {
  }

  // ----- Closure: every non-scalar field type names a class of the dictionary -----

  /** Every field type is a scalar tag or a class of `c`, except possibly `pending`,
      the class about to be registered. */
  ghost predicate ClosedExcept(c: Classes, pending: string)
  {
    forall n, j :: n in c.fields && 0 <= j < |c.fields[n]| ==>
      IsScalarTag(c.fields[n][j].typeName) || c.fields[n][j].typeName in c.fields || c.fields[n][j].typeName == pending
  }

  ghost predicate Closed(c: Classes)
  {
    forall n, j :: n in c.fields && 0 <= j < |c.fields[n]| ==>
      IsScalarTag(c.fields[n][j].typeName) || c.fields[n][j].typeName in c.fields
  }

  lemma {:induction false} ObjectCloses(c: Classes, obj: JsonValue, cls: string)
    requires ClosedExcept(c, cls)
    ensures Closed(ProcessObject(c, obj, cls))
    decreases obj, 2
  {
    var registered := Register(c, cls);
    assert Closed(registered);
    EntriesClose(registered, obj, cls, EntryCount(obj));
  }

  lemma {:induction false} EntriesClose(c: Classes, obj: JsonValue, cls: string, n: nat)
    requires cls in c.fields && n <= EntryCount(obj) && Closed(c)
    ensures Closed(ProcessEntries(c, obj, cls, n))
    decreases obj, 1, n
  {
    if n > 0 {
      var before := ProcessEntries(c, obj, cls, n - 1);
      assert ProcessEntries(c, obj, cls, n) == ProcessEntry(before, obj, cls, n - 1);
      EntriesClose(c, obj, cls, n - 1);
      EntryCloses(before, obj, cls, n - 1);
    }
  }

  lemma {:induction false} EntryCloses(c: Classes, obj: JsonValue, cls: string, i: nat)
    requires cls in c.fields && i < EntryCount(obj) && Closed(c)
    ensures Closed(ProcessEntry(c, obj, cls, i))
    decreases obj, 0
  {
    match obj
    case JObject(ms) => FieldCloses(c, cls, ms[i].key, ms[i].value);
    case JArray(items) => FieldCloses(c, cls, NatToString(i), items[i]);
  }

  lemma {:induction false} FieldCloses(c: Classes, cls: string, key: string, value: JsonValue)
    requires cls in c.fields && Closed(c)
    ensures Closed(ProcessField(c, cls, key, value))
    decreases value, 3
  {
    var d := Descriptor(cls, key, value);
    var pushed := Push(c, cls, d);
    if IsListOfObjects(value) || value.JObject? {
      assert ClosedExcept(pushed, d.typeName);
      var child := if value.JArray? then value.items[0] else value;
      ObjectCloses(pushed, child, d.typeName);
    } else {
      assert IsScalarTag(d.typeName);
      assert Closed(pushed);
    }
  }

  /** Closure of the extracted dictionary: the root is a class, and every field whose
      type is not one of the four scalar tags has a class of that name. */
  lemma ExtractClosed(obj: JsonValue, rootName: string)
    ensures rootName in Extract(obj, rootName).fields
    ensures Closed(Extract(obj, rootName))
  {
    ObjectCloses(Empty, obj, rootName);
  }

  // ----- One descriptor per key, in key order -----

  /** Every class the loop recurses into has a name strictly longer than `cls`: no nested
      object under the empty key and no list of objects under the key "List" or "". */
  predicate ChildNamesGrow(obj: JsonValue)
  {
    forall i :: 0 <= i < EntryCount(obj) ==>
      && (IsListOfObjects(EntryValue(obj, i)) ==> StripListSuffix(EntryKey(obj, i)) != "")
      && (EntryValue(obj, i).JObject? ==> EntryKey(obj, i) != "")
  }

  /** One descriptor per key of `obj`, in the order `for…in` visits the keys. */
  function Descriptors(obj: JsonValue, cls: string): (r: seq<FieldDescriptor>)
    ensures |r| == EntryCount(obj)
  {
    seq(EntryCount(obj), i requires 0 <= i < EntryCount(obj) => Descriptor(cls, EntryKey(obj, i), EntryValue(obj, i)))
  }

  /** The loop body adds exactly its own descriptor to `cls` when the class it recurses
      into is a different one. */
  lemma FieldAppendsOne(c: Classes, cls: string, key: string, value: JsonValue)
    requires cls in c.fields
    requires IsListOfObjects(value) ==> StripListSuffix(key) != ""
    requires value.JObject? ==> key != ""
    ensures ProcessField(c, cls, key, value).fields[cls] == c.fields[cls] + [Descriptor(cls, key, value)]
  {
    var d := Descriptor(cls, key, value);
    if IsListOfObjects(value) || value.JObject? {
      var child := if value.JArray? then value.items[0] else value;
      ObjectGrows(Push(c, cls, d), child, d.typeName);
      assert |d.typeName| > |cls|;
      assert !StartsWith(cls, d.typeName);
    }
  }

  lemma {:induction false} EntriesAppend(c: Classes, obj: JsonValue, cls: string, n: nat)
    requires cls in c.fields && n <= EntryCount(obj) && ChildNamesGrow(obj)
    ensures ProcessEntries(c, obj, cls, n).fields[cls] == c.fields[cls] + Descriptors(obj, cls)[..n]
  {
    if n > 0 {
      var before := ProcessEntries(c, obj, cls, n - 1);
      assert ProcessEntries(c, obj, cls, n) == ProcessEntry(before, obj, cls, n - 1);
      EntriesAppend(c, obj, cls, n - 1);
      EntryIsField(before, obj, cls, n - 1);
      FieldAppendsOne(before, cls, EntryKey(obj, n - 1), EntryValue(obj, n - 1));
      PrefixSnoc(Descriptors(obj, cls), n);
    }
  }

  /** A class visited by `processObject` gains exactly one descriptor per key of its
      object, in key order, after whatever it already held; descriptors are appended,
      never overwritten. */
  lemma FieldsInKeyOrder(c: Classes, obj: JsonValue, cls: string)
    requires ChildNamesGrow(obj)
    ensures ProcessObject(c, obj, cls).fields[cls] == Register(c, cls).fields[cls] + Descriptors(obj, cls)
  {
    EntriesAppend(Register(c, cls), obj, cls, EntryCount(obj));
    assert Descriptors(obj, cls)[..EntryCount(obj)] == Descriptors(obj, cls);
  }

  /** The class a round recurses into stays registered through the later rounds. */
  lemma {:induction false} ChildStaysRegistered(c: Classes, obj: JsonValue, cls: string, i: nat, n: nat)
    requires cls in c.fields && i < n <= EntryCount(obj)
    requires IsListOfObjects(EntryValue(obj, i)) || EntryValue(obj, i).JObject?
    ensures Descriptor(cls, EntryKey(obj, i), EntryValue(obj, i)).typeName in ProcessEntries(c, obj, cls, n).fields
  {
    var before := ProcessEntries(c, obj, cls, n - 1);
    if i == n - 1 {
      EntryIsField(before, obj, cls, i);
    } else {
      ChildStaysRegistered(c, obj, cls, i, n - 1);
    }
  }

  /** The item class of a list of objects under the key `List`, and the class of an object
      under the empty key, is the enclosing class itself, so their fields are appended to it. */
  lemma ChildNamedAsParent(cls: string, v: JsonValue)
    ensures IsListOfObjects(v) ==> Descriptor(cls, "List", v).typeName == cls
    ensures v.JObject? ==> Descriptor(cls, "", v).typeName == cls
  {
    assert EndsWith("List", "List");
    assert StripListSuffix("List") == "";
  }

  /** The descriptor of a key: its name, whether it is a list, and its inferred type. */
  lemma DescriptorShape(cls: string, key: string, v: JsonValue)
    ensures var d := Descriptor(cls, key, v);
            && d.name == key
            && (d.isList <==> v.JArray?)
            && (IsListOfObjects(v) ==> d.typeName == cls + Capitalize(StripListSuffix(key)))
            && (v.JArray? && !IsListOfObjects(v) ==> d.typeName == "String")
            && (v.JObject? ==> d.typeName == cls + Capitalize(key))
            && (v.JInt? ==> d.typeName == "Integer")
            && (v.JNonInt? ==> d.typeName == "Double")
            && (v.JBool? ==> d.typeName == "Boolean")
            && (v.JString? || v.JNull? ==> d.typeName == "String")
  {
  }

  /** What each key of the root object becomes in the extracted dictionary: the
      descriptor at position `i` of the root class is the `i`-th key's, with the type
      the walk infers for its value; a nested class it names is registered. */
  lemma FieldInference(obj: JsonValue, rootName: string, i: nat)
    requires ChildNamesGrow(obj) && i < EntryCount(obj)
    ensures |Extract(obj, rootName).fields[rootName]| == EntryCount(obj)
    ensures var r := Extract(obj, rootName);
            var d := r.fields[rootName][i];
            var key := EntryKey(obj, i);
            var v := EntryValue(obj, i);
            && d.name == key
            && (d.isList <==> v.JArray?)
            && (IsListOfObjects(v) ==> d.typeName == rootName + Capitalize(StripListSuffix(key)) && d.typeName in r.fields)
            && (v.JArray? && !IsListOfObjects(v) ==> d.typeName == "String")
            && (v.JObject? ==> d.typeName == rootName + Capitalize(key) && d.typeName in r.fields)
            && (v.JInt? ==> d.typeName == "Integer")
            && (v.JNonInt? ==> d.typeName == "Double")
            && (v.JBool? ==> d.typeName == "Boolean")
            && (v.JString? || v.JNull? ==> d.typeName == "String")
  {
    var r := Extract(obj, rootName);
    assert r == ProcessObject(Empty, obj, rootName);
    FieldsInKeyOrder(Empty, obj, rootName);
    assert r.fields[rootName] == Descriptors(obj, rootName);
    var key, v := EntryKey(obj, i), EntryValue(obj, i);
    assert r.fields[rootName][i] == Descriptor(rootName, key, v);
    DescriptorShape(rootName, key, v);
    if IsListOfObjects(v) || v.JObject? {
      ChildStaysRegistered(Register(Empty, rootName), obj, rootName, i, EntryCount(obj));
    }
  }

  /** Only the first element of a list of objects is looked at: the rest of the list
      never changes the result. */
  lemma OnlyFirstItemSampled(c: Classes, cls: string, key: string, first: JsonValue, rest1: seq<JsonValue>, rest2: seq<JsonValue>)
    requires cls in c.fields
    ensures ProcessField(c, cls, key, JArray([first] + rest1)) == ProcessField(c, cls, key, JArray([first] + rest2))
  {
  }

  // ----- Helpers: a sequence fact used by the proofs above -----

  lemma PrefixSnoc<T>(s: seq<T>, n: nat)
    requires 0 < n <= |s|
    ensures s[..n] == s[..n - 1] + [s[n - 1]]
  {
  }
}
