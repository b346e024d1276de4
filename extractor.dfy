/** `extractClasses` (script.js:202-238) as the source runs it: a `classes` dictionary
    that the nested `processObject` fills by pushing descriptors inside a `for…in` loop
    and recursing. Each step is proved to compute what `Schema.ProcessObject` says. */
module Extraction {
  import opened Text
  import opened Json
  import opened Schema

  class Extractor {
    /** The keys of `classes` in insertion order. */
    var names: seq<string>
    /** `classes`: class name to the descriptors pushed for it. */
    var classes: map<string, seq<FieldDescriptor>>

    function Snapshot(): Classes
      reads this
    {
      Classes(names, classes)
    }

    /** `const classes = {};` */
    constructor ()
      ensures Snapshot() == Empty
    {
      names := [];
      classes := map[];
    }

    /** `processObject(obj, className)` (script.js:205-234). */
    method ProcessObject(obj: JsonValue, className: string)
      modifies this
      decreases obj
      ensures Snapshot() == Schema.ProcessObject(old(Snapshot()), obj, className)
    {
      if className !in classes {
        classes := classes[className := []];
        names := names + [className];
      }
      ghost var start := Snapshot();
      assert start == Register(old(Snapshot()), className);
      var i := 0;
      while i < EntryCount(obj)
        invariant 0 <= i <= EntryCount(obj)
        invariant className in classes
        invariant Snapshot() == ProcessEntries(start, obj, className, i)
      {
        ghost var before := Snapshot();
        var key, value;
        match obj {
          case JObject(ms) => key, value := ms[i].key, ms[i].value;
          case JArray(items) => key, value := NatToString(i), items[i];
        }
        if value.JArray? {
          if |value.items| > 0 && IsObjectLike(value.items[0]) {
            var itemClassName := className + Capitalize(StripListSuffix(key));
            classes := classes[className := classes[className] + [FieldDescriptor(key, itemClassName, true)]];
            ProcessObject(value.items[0], itemClassName);
          } else {
            classes := classes[className := classes[className] + [FieldDescriptor(key, "String", true)]];
          }
        } else if value.JObject? {
          var nestedClassName := className + Capitalize(key);
          classes := classes[className := classes[className] + [FieldDescriptor(key, nestedClassName, false)]];
          ProcessObject(value, nestedClassName);
        } else {
          classes := classes[className := classes[className] + [FieldDescriptor(key, ScalarType(value), false)]];
        }
        assert Snapshot() == ProcessEntry(before, obj, className, i);
        i := i + 1;
      }
    }
  }

  /** `extractClasses(obj, rootName)`: a fresh dictionary filled from the root object. */
  method ExtractClasses(obj: JsonValue, rootName: string) returns (result: Classes)
    ensures result == Extract(obj, rootName)
  {
    var extractor := new Extractor();
    extractor.ProcessObject(obj, rootName);
    result := extractor.Snapshot();
  }
}
