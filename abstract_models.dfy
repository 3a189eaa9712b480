/**
 * The generic model object: attributes held by name, a list of the names
 * it serialises (`inputs`), and the bulk operations that read and write
 * attributes through those names.
 */
module AbstractModels {
  import opened Wrappers
  import opened Exceptions
  import opened OrderedDicts

  /** A Python value as the serialisation code sees it; `Null` is `None`. */
  datatype Value =
    | Null
    | Int(i: int)
    | Num(r: real)
    | Str(s: string)
    | Bool(b: bool)
    | List(items: seq<Value>)
    | Map(entries: seq<(Value, Value)>)

  /** An ordered dictionary keyed by attribute name, as a value. */
  function Record(d: Dict<string, Value>): (v: Value)
    ensures v.Map? && |v.entries| == |d|
    ensures forall i :: 0 <= i < |d| ==> v.entries[i] == (Str(d[i].0), d[i].1)
  {
    Map(seq(|d|, i requires 0 <= i < |d| => (Str(d[i].0), d[i].1)))
  }

  // ---------------------------------------------------------------------------
  // to_dict
  // ---------------------------------------------------------------------------

  /** The names `to_dict` exports, in order: not skipped, and not `None` unless `None` is exported. */
  function Exported(attrs: map<string, Value>, skip: seq<string>, exportNone: bool, names: seq<string>): seq<string>
    requires forall n :: n in names && n !in skip ==> n in attrs
  {
    if names == [] then []
    else
      var n := names[|names| - 1];
      var kept := n !in skip && (exportNone || attrs[n] != Null);
      Exported(attrs, skip, exportNone, names[..|names| - 1]) + (if kept then [n] else [])
  }

  /**
   * The dictionary `to_dict` fills from `names`: each name not skipped is
   * read, and stored through `serial` unless it is `None` and `None` is not
   * exported.  Reading an attribute the object lacks is an `AttributeError`.
   */
  function Serialise(attrs: map<string, Value>, skip: seq<string>, exportNone: bool,
                     serial: Value -> Value, names: seq<string>): Result<Dict<string, Value>>
  {
    if names == [] then Ok([])
    else
      match Serialise(attrs, skip, exportNone, serial, names[..|names| - 1])
      case Err(e) => Err(e)
      case Ok(d) =>
        var n := names[|names| - 1];
        if n in skip then Ok(d)
        else if n !in attrs then Err(AttributeError(n))
        else if !exportNone && attrs[n] == Null then Ok(d)
        else Ok(Put(d, n, serial(attrs[n])))
  }

  /** `to_dict` fails exactly when a name it must read is not an attribute, and then at the first such name. */
  lemma SerialiseFails(attrs: map<string, Value>, skip: seq<string>, exportNone: bool,
                       serial: Value -> Value, names: seq<string>)
    ensures Serialise(attrs, skip, exportNone, serial, names).Ok? <==>
            forall n :: n in names && n !in skip ==> n in attrs
    ensures Serialise(attrs, skip, exportNone, serial, names).Err? ==>
            exists i :: 0 <= i < |names| && names[i] !in skip && names[i] !in attrs &&
                        Serialise(attrs, skip, exportNone, serial, names).error == AttributeError(names[i]) &&
                        forall j :: 0 <= j < i && names[j] !in skip ==> names[j] in attrs
  {
    SerialiseOk(attrs, skip, exportNone, serial, names);
    SerialiseFirstError(attrs, skip, exportNone, serial, names);
  }

  lemma {:induction false} SerialiseOk(attrs: map<string, Value>, skip: seq<string>, exportNone: bool,
                                       serial: Value -> Value, names: seq<string>)
    ensures Serialise(attrs, skip, exportNone, serial, names).Ok? <==>
            forall n :: n in names && n !in skip ==> n in attrs
  {
    if names != [] {
      var init := names[..|names| - 1];
      SerialiseOk(attrs, skip, exportNone, serial, init);
      assert forall n :: n in names <==> n in init || n == names[|names| - 1];
    }
  }

  lemma {:induction false} SerialiseFirstError(attrs: map<string, Value>, skip: seq<string>, exportNone: bool,
                                               serial: Value -> Value, names: seq<string>)
    ensures Serialise(attrs, skip, exportNone, serial, names).Err? ==>
            exists i :: 0 <= i < |names| && names[i] !in skip && names[i] !in attrs &&
                        Serialise(attrs, skip, exportNone, serial, names).error == AttributeError(names[i]) &&
                        forall j :: 0 <= j < i && names[j] !in skip ==> names[j] in attrs
  {
    if names != [] {
      var init := names[..|names| - 1];
      if Serialise(attrs, skip, exportNone, serial, init).Err? {
        SerialiseFirstError(attrs, skip, exportNone, serial, init);
        var i :| 0 <= i < |init| && init[i] !in skip && init[i] !in attrs &&
                 Serialise(attrs, skip, exportNone, serial, init).error == AttributeError(init[i]) &&
                 forall j :: 0 <= j < i && init[j] !in skip ==> init[j] in attrs;
        assert Serialise(attrs, skip, exportNone, serial, names) == Serialise(attrs, skip, exportNone, serial, init);
        assert names[i] == init[i];
        assert forall j :: 0 <= j < i && names[j] !in skip ==> names[j] in attrs by {
          forall j | 0 <= j < i && names[j] !in skip
            ensures names[j] in attrs
          {
            assert names[j] == init[j];
          }
        }
      } else if Serialise(attrs, skip, exportNone, serial, names).Err? {
        SerialiseOk(attrs, skip, exportNone, serial, init);
        var i := |names| - 1;
        assert forall j :: 0 <= j < i && names[j] !in skip ==> names[j] in attrs by {
          forall j | 0 <= j < i && names[j] !in skip
            ensures names[j] in attrs
          {
            assert names[j] == init[j];
            assert init[j] in init;
          }
        }
      }
    }
  }

  /**
   * What `to_dict` exports: a name is a key exactly when it is listed, not
   * skipped, and not a `None` left out; its value is the serialised attribute.
   */
  lemma {:induction false} SerialiseEntries(attrs: map<string, Value>, skip: seq<string>, exportNone: bool,
                                            serial: Value -> Value, names: seq<string>, n: string)
    requires forall m :: m in names && m !in skip ==> m in attrs
    ensures Serialise(attrs, skip, exportNone, serial, names).Ok?
    ensures var d := Serialise(attrs, skip, exportNone, serial, names).value;
      Get(d, n) == if n in names && n !in skip && (exportNone || attrs[n] != Null)
                   then Some(serial(attrs[n])) else None
    ensures DistinctKeys(Serialise(attrs, skip, exportNone, serial, names).value)
  {
    if names != [] {
      var init := names[..|names| - 1];
      var last := names[|names| - 1];
      assert forall m :: m in names <==> m in init || m == last;
      SerialiseEntries(attrs, skip, exportNone, serial, init, n);
      var d := Serialise(attrs, skip, exportNone, serial, init).value;
      if last !in skip && (exportNone || attrs[last] != Null) {
        PutGet(d, last, serial(attrs[last]), n);
        PutDistinct(d, last, serial(attrs[last]));
      }
    }
  }

  /** Without repeated names the keys are exactly the exported names, in the order listed. */
  lemma {:induction false} SerialiseKeys(attrs: map<string, Value>, skip: seq<string>, exportNone: bool,
                                         serial: Value -> Value, names: seq<string>)
    requires forall i, j :: 0 <= i < j < |names| ==> names[i] != names[j]
    requires Serialise(attrs, skip, exportNone, serial, names).Ok?
    ensures forall n :: n in names && n !in skip ==> n in attrs
    ensures Keys(Serialise(attrs, skip, exportNone, serial, names).value) == Exported(attrs, skip, exportNone, names)
  {
    SerialiseFails(attrs, skip, exportNone, serial, names);
    if names != [] {
      var init := names[..|names| - 1];
      var last := names[|names| - 1];
      SerialiseFails(attrs, skip, exportNone, serial, init);
      SerialiseKeys(attrs, skip, exportNone, serial, init);
      var d := Serialise(attrs, skip, exportNone, serial, init).value;
      if last !in skip && (exportNone || attrs[last] != Null) {
        PutKeys(d, last, serial(attrs[last]));
        SerialiseEntries(attrs, skip, exportNone, serial, init, last);
        GetPresent(d, last);
        assert last !in init;
      }
    }
  }

  /** Exporting `None` drops only the skipped names. */
  lemma {:induction false} ExportedAll(attrs: map<string, Value>, skip: seq<string>, names: seq<string>)
    requires forall n :: n in names && n !in skip ==> n in attrs
    ensures Exported(attrs, skip, true, names) == Unskipped(skip, names)
  {
    if names != [] {
      var init := names[..|names| - 1];
      assert forall n :: n in init ==> n in names;
      ExportedAll(attrs, skip, init);
    }
  }

  /** The listed names that are not skipped, in order. */
  function Unskipped(skip: seq<string>, names: seq<string>): seq<string> {
    if names == [] then []
    else Unskipped(skip, names[..|names| - 1]) + (if names[|names| - 1] in skip then [] else [names[|names| - 1]])
  }

  // ---------------------------------------------------------------------------
  // set and add_from_same
  // ---------------------------------------------------------------------------

  /** Attributes after `set(values)` has assigned each name the object has: a missing key stops with `KeyError`. */
  function AssignFrom(attrs: map<string, Value>, names: seq<string>, values: map<string, Value>): (map<string, Value>, Outcome)
  {
    if names == [] then (attrs, Pass)
    else
      var (a, o) := AssignFrom(attrs, names[..|names| - 1], values);
      var n := names[|names| - 1];
      if o.Fail? || n !in a then (a, o)
      else if n !in values then (a, Fail(KeyError))
      else (a[n := values[n]], Pass)
  }

  /**
   * `set(values)` succeeds exactly when `values` holds every listed name the
   * object has, and then those names read their new values and nothing else changes.
   */
  lemma {:induction false} AssignFromEffect(attrs: map<string, Value>, names: seq<string>, values: map<string, Value>)
    ensures AssignFrom(attrs, names, values).0.Keys == attrs.Keys
    ensures AssignFrom(attrs, names, values).1 == Pass <==>
            forall n :: n in names && n in attrs ==> n in values
    ensures AssignFrom(attrs, names, values).1.Fail? ==> AssignFrom(attrs, names, values).1.error == KeyError
    ensures AssignFrom(attrs, names, values).1 == Pass ==>
            forall n :: n in attrs ==>
              AssignFrom(attrs, names, values).0[n] == if n in names then values[n] else attrs[n]
  {
    if names != [] {
      var init := names[..|names| - 1];
      AssignFromEffect(attrs, init, values);
      assert forall n :: n in names <==> n in init || n == names[|names| - 1];
    }
  }

  /** The attributes after `add_from_same` copies each listed name `source` has. */
  function CopyFrom(attrs: map<string, Value>, source: map<string, Value>, names: seq<string>): map<string, Value>
  {
    if names == [] then attrs
    else
      var a := CopyFrom(attrs, source, names[..|names| - 1]);
      var n := names[|names| - 1];
      if n in source then a[n := source[n]] else a
  }

  /** `inputs` after `add_from_same` appends each copied name it lacks. */
  function AppendNew(inputs: seq<string>, source: map<string, Value>, names: seq<string>): seq<string>
  {
    if names == [] then inputs
    else
      var ins := AppendNew(inputs, source, names[..|names| - 1]);
      var n := names[|names| - 1];
      if n in source && n !in ins then ins + [n] else ins
  }

  /** Every listed name `source` has is copied; every other attribute keeps its value. */
  lemma {:induction false} CopyFromEffect(attrs: map<string, Value>, source: map<string, Value>, names: seq<string>)
    ensures forall n :: n in CopyFrom(attrs, source, names) <==> n in attrs || (n in names && n in source)
    ensures forall n :: n in CopyFrom(attrs, source, names) ==>
      CopyFrom(attrs, source, names)[n] == if n in names && n in source then source[n] else attrs[n]
  {
    if names != [] {
      CopyFromEffect(attrs, source, names[..|names| - 1]);
      assert forall n :: n in names <==> n in names[..|names| - 1] || n == names[|names| - 1];
    }
  }

  /**
   * The new `inputs` keeps the old list as its start and adds each copied
   * name it lacked, once: without repeats before, without repeats after.
   */
  lemma {:induction false} AppendNewEffect(inputs: seq<string>, source: map<string, Value>, names: seq<string>)
    ensures |inputs| <= |AppendNew(inputs, source, names)|
    ensures AppendNew(inputs, source, names)[..|inputs|] == inputs
    ensures forall n :: n in AppendNew(inputs, source, names) <==> n in inputs || (n in names && n in source)
    ensures (forall i, j :: 0 <= i < j < |inputs| ==> inputs[i] != inputs[j]) ==>
      var r := AppendNew(inputs, source, names);
      forall i, j :: 0 <= i < j < |r| ==> r[i] != r[j]
  {
    if names != [] {
      var init := names[..|names| - 1];
      AppendNewEffect(inputs, source, init);
      assert forall n :: n in names <==> n in init || n == names[|names| - 1];
      var ins := AppendNew(inputs, source, init);
      var n := names[|names| - 1];
      if n in source && n !in ins {
        assert (ins + [n])[..|inputs|] == ins[..|inputs|];
      }
    }
  }

  /** The model object: named attributes, and `inputs` where the object has that attribute. */
  class PhysicalObject {
    var attrs: map<string, Value>
    var inputs: Option<seq<string>>
    /** `inputs` is the class default, a tuple, which has no `append`. */
    var inputsTuple: bool
    var skipList: seq<string>

    /** The class defaults: type "physical_object", `inputs` the empty tuple and an empty `skip_list`. */
    constructor ()
      ensures attrs == map["type" := Str("physical_object")]
      ensures inputs == Some([]) && inputsTuple && skipList == []
    {
      attrs := map["type" := Str("physical_object")];
      inputs := Some([]);
      inputsTuple := true;
      skipList := [];
    }

    /** `CustomObject()`: unset `id` and `name`, base type and type "custom_object". */
    constructor Custom()
      ensures inputs == Some(["id", "name", "base_type", "type"]) && !inputsTuple && skipList == []
      ensures attrs == map["id" := Null, "name" := Null,
                           "base_type" := Str("custom_object"), "type" := Str("custom_object")]
    {
      attrs := map["id" := Null, "name" := Null,
                   "base_type" := Str("custom_object"), "type" := Str("custom_object")];
      inputs := Some(["id", "name", "base_type", "type"]);
      inputsTuple := false;
      skipList := [];
    }

    /** The `id` property: the value last assigned to it, `AttributeError` before any. */
    function Id(): (r: Result<Value>)
      reads this
      ensures r.Ok? <==> "id" in attrs
      ensures r.Ok? ==> r.value == attrs["id"]
    {
      if "id" in attrs then Ok(attrs["id"]) else Err(AttributeError("id"))
    }

    /** `obj.id = v`. */
    method SetId(v: Value)
      modifies this
      ensures attrs == old(attrs)["id" := v] && inputs == old(inputs) && skipList == old(skipList)
      ensures inputsTuple == old(inputsTuple)
      ensures Id() == Ok(v)
    {
      attrs := attrs["id" := v];
    }

    /** `to_dict(extra, export_none=exportNone)`, with `serial` in the role of `collect_serial_value`. */
    method ToDict(serial: Value -> Value, extra: seq<string> := [], exportNone: bool := true) returns (r: Result<Dict<string, Value>>)
      ensures r == Serialise(attrs, skipList, exportNone, serial, (if inputs.Some? then inputs.value else []) + extra)
    {
      var fullInputs := (if inputs.Some? then inputs.value else []) + extra;
      var attributes, skip := attrs, skipList;
      var outputs: Dict<string, Value> := [];
      var i := 0;
      while i < |fullInputs|
        invariant 0 <= i <= |fullInputs|
        invariant Serialise(attributes, skip, exportNone, serial, fullInputs[..i]) == Ok(outputs)
      {
        var item := fullInputs[i];
        assert fullInputs[..i + 1][..i] == fullInputs[..i];
        if item !in skip {
          if item !in attributes {
            SerialiseStops(attributes, skip, exportNone, serial, fullInputs, i + 1);
            return Err(AttributeError(item));
          }
          var value := attributes[item];
          if !exportNone && value == Null {
            i := i + 1;
            continue;
          }
          outputs := Put(outputs, item, serial(value));
        }
        i := i + 1;
      }
      assert fullInputs[..i] == fullInputs;
      return Ok(outputs);
    }

    /** `set(values)`: assigns `values[n]` to each name in `inputs` the object has. */
    method Set(values: map<string, Value>) returns (r: Outcome)
      modifies this
      ensures inputs.None? ==> r == Pass && attrs == old(attrs)
      ensures inputs.Some? ==> (attrs, r) == AssignFrom(old(attrs), inputs.value, values)
      ensures inputs == old(inputs) && inputsTuple == old(inputsTuple) && skipList == old(skipList)
    {
      if inputs.None? {
        return Pass;
      }
      var names := inputs.value;
      var i := 0;
      while i < |names|
        invariant 0 <= i <= |names|
        invariant AssignFrom(old(attrs), names[..i], values) == (attrs, Pass)
        invariant inputs == old(inputs) && inputsTuple == old(inputsTuple) && skipList == old(skipList)
      {
        var item := names[i];
        assert names[..i + 1][..i] == names[..i];
        if item in attrs {
          if item !in values {
            AssignFromStops(old(attrs), names, values, i + 1);
            return Fail(KeyError);
          }
          attrs := attrs[item := values[item]];
        }
        i := i + 1;
      }
      assert names[..i] == names;
      return Pass;
    }

    /**
     * `add_from_same(obj, inputs_from, update_inputs)`: copies the names
     * listed in `obj.inputs` (or, with any other `inputs_from`, in this
     * object's own) that `obj` has.  When this object's `inputs` is still
     * the class tuple, the first copied name it would append raises
     * AttributeError, after that name has been copied.
     */
    method AddFromSame(obj: PhysicalObject, inputsFrom: string := "obj", updateInputs: bool := true) returns (r: Outcome)
      modifies this
      ensures old(inputs).None? ==>
        r == Fail(ModelError("self does not contain attribute: 'inputs'")) && attrs == old(attrs) && inputs == old(inputs)
      ensures old(inputs).Some? && inputsFrom == "obj" && old(obj.inputs).None? ==>
        r == Fail(ModelError("obj does not contain attribute: 'inputs'")) && attrs == old(attrs) && inputs == old(inputs)
      ensures old(inputs).Some? && (inputsFrom != "obj" || old(obj.inputs).Some?) && !(updateInputs && old(inputsTuple)) ==>
        var names := if inputsFrom == "obj" then old(obj.inputs).value else old(inputs).value;
        r == Pass &&
        attrs == CopyFrom(old(attrs), old(obj.attrs), names) &&
        inputs == Some(if updateInputs then AppendNew(old(inputs).value, old(obj.attrs), names) else old(inputs).value)
      ensures old(inputs).Some? && (inputsFrom != "obj" || old(obj.inputs).Some?) && updateInputs && old(inputsTuple) ==>
        var names := if inputsFrom == "obj" then old(obj.inputs).value else old(inputs).value;
        var f := FirstNew(old(inputs).value, old(obj.attrs), names);
        inputs == old(inputs) &&
        (f.None? ==> r == Pass && attrs == CopyFrom(old(attrs), old(obj.attrs), names)) &&
        (f.Some? ==> r == Fail(AttributeError("append")) &&
                     attrs == CopyFrom(old(attrs), old(obj.attrs), names[..f.value + 1]))
      ensures inputsTuple == old(inputsTuple) && skipList == old(skipList)
    {
      if inputs.None? {
        return Fail(ModelError("self does not contain attribute: 'inputs'"));
      }
      var inputsList: seq<string>;
      if inputsFrom == "obj" {
        if obj.inputs.Some? {
          inputsList := obj.inputs.value;
        } else {
          return Fail(ModelError("obj does not contain attribute: 'inputs'"));
        }
      } else {
        inputsList := inputs.value;
      }
      // When `obj` is this object, each copy assigns an attribute its own
      // value, so reading `obj` as it was at the call gives the same values.
      var copied, names;
      copied, names, r := CopyInputs(attrs, inputs.value, inputsTuple, obj.attrs, inputsList, updateInputs);
      attrs, inputs := copied, Some(names);
    }
  }

  /**
   * The loop of `add_from_same` over `inputsList`, on the attributes and
   * `inputs` of the object it updates: each listed name `source` has is
   * copied, and appended to `inputs` when `updateInputs` asks and it is new;
   * appending to the class tuple raises AttributeError.
   */
  method CopyInputs(attrs: map<string, Value>, inputs: seq<string>, tuple: bool, source: map<string, Value>,
                    inputsList: seq<string>, updateInputs: bool)
    returns (copied: map<string, Value>, names: seq<string>, r: Outcome)
    ensures !(updateInputs && tuple) ==>
      r == Pass && copied == CopyFrom(attrs, source, inputsList) &&
      names == (if updateInputs then AppendNew(inputs, source, inputsList) else inputs)
    ensures updateInputs && tuple ==>
      var f := FirstNew(inputs, source, inputsList);
      names == inputs &&
      (f.None? ==> r == Pass && copied == CopyFrom(attrs, source, inputsList)) &&
      (f.Some? ==> r == Fail(AttributeError("append")) && copied == CopyFrom(attrs, source, inputsList[..f.value + 1]))
  {
    copied, names := attrs, inputs;
    var i := 0;
    while i < |inputsList|
      invariant 0 <= i <= |inputsList|
      invariant copied == CopyFrom(attrs, source, inputsList[..i])
      invariant names == if updateInputs && !tuple then AppendNew(inputs, source, inputsList[..i]) else inputs
      invariant updateInputs && tuple ==> FirstNew(inputs, source, inputsList[..i]).None?
    {
      var item := inputsList[i];
      assert inputsList[..i + 1][..i] == inputsList[..i];
      if item in source {
        copied := copied[item := source[item]];
        if updateInputs && item !in names {
          if tuple {
            assert FirstNew(inputs, source, inputsList[..i + 1]) == Some(i);
            FirstNewStops(inputs, source, inputsList, i + 1);
            return copied, names, Fail(AttributeError("append"));
          }
          names := names + [item];
        }
      }
      i := i + 1;
    }
    assert inputsList[..i] == inputsList;
    return copied, names, Pass;
  }

  /** The position of the first listed name that `source` has and `inputs` lacks, if any. */
  function FirstNew(inputs: seq<string>, source: map<string, Value>, names: seq<string>): (r: Option<nat>)
    ensures r.Some? ==> r.value < |names| && names[r.value] in source && names[r.value] !in inputs
    ensures r.Some? ==> forall j :: 0 <= j < r.value ==> names[j] !in source || names[j] in inputs
    ensures r.None? <==> forall j :: 0 <= j < |names| ==> names[j] !in source || names[j] in inputs
  {
    if names == [] then None
    else
      var f := FirstNew(inputs, source, names[..|names| - 1]);
      var n := names[|names| - 1];
      if f.Some? then f
      else if n in source && n !in inputs then Some(|names| - 1)
      else None
  }

  /** A prefix that already holds a new name decides the first new name of the whole list. */
  lemma {:induction false} FirstNewStops(inputs: seq<string>, source: map<string, Value>, names: seq<string>, k: nat)
    requires k <= |names|
    requires FirstNew(inputs, source, names[..k]).Some?
    ensures FirstNew(inputs, source, names) == FirstNew(inputs, source, names[..k])
  {
    if k < |names| {
      assert names[..|names| - 1][..k] == names[..k];
      FirstNewStops(inputs, source, names[..|names| - 1], k);
    } else {
      assert names[..k] == names;
    }
  }

  /** Once a prefix stops, longer prefixes stop the same way with the same attributes. */
  lemma {:induction false} AssignFromStops(attrs: map<string, Value>, names: seq<string>, values: map<string, Value>, k: nat)
    requires 0 < k <= |names|
    requires AssignFrom(attrs, names[..k], values).1.Fail?
    ensures AssignFrom(attrs, names, values) == AssignFrom(attrs, names[..k], values)
  {
    if k < |names| {
      assert names[..|names| - 1][..k] == names[..k];
      AssignFromStops(attrs, names[..|names| - 1], values, k);
    } else {
      assert names[..k] == names;
    }
  }

  /** Once a prefix fails, `to_dict` over longer prefixes fails the same way. */
  lemma {:induction false} SerialiseStops(attrs: map<string, Value>, skip: seq<string>, exportNone: bool,
                                          serial: Value -> Value, names: seq<string>, k: nat)
    requires k <= |names|
    requires Serialise(attrs, skip, exportNone, serial, names[..k]).Err?
    ensures Serialise(attrs, skip, exportNone, serial, names) == Serialise(attrs, skip, exportNone, serial, names[..k])
  {
    if k < |names| {
      assert names[..|names| - 1][..k] == names[..k];
      SerialiseStops(attrs, skip, exportNone, serial, names[..|names| - 1], k);
    } else {
      assert names[..k] == names;
    }
  }
}
