/**
 * sfsimodels/files.py: rebuilding soils and soil profiles from the records
 * of an exported dictionary, and the `Output` collection that gathers the
 * serialised forms of model objects by category and id.
 */
module Files {
  import opened Wrappers
  import opened Exceptions
  import opened Builtins
  import opened OrderedDicts
  import opened Soils
  import opened SoilProfiles
  import opened AbstractModels

  // ---------------------------------------------------------------------------
  // add_to_obj
  // ---------------------------------------------------------------------------

  /**
   * `add_to_obj(obj, dictionary, exceptions)` on a generic object: every
   * entry whose key is not an exception and whose value is not `None` is
   * assigned, in dictionary order.
   */
  function AddEntries(attrs: map<string, Value>, dictionary: Dict<string, Value>,
                      exceptions: seq<string>): map<string, Value>
    decreases |dictionary|
  {
    if dictionary == [] then attrs
    else
      var item := dictionary[0].0;
      var v := dictionary[0].1;
      AddEntries(if item in exceptions || v == Null then attrs else attrs[item := v],
                 dictionary[1..], exceptions)
  }

  /**
   * After `add_to_obj`, an attribute holds the dictionary's value for it when
   * that value was assigned, and what it held before otherwise.
   */
  lemma {:induction false} AddEntriesEffect(attrs: map<string, Value>, dictionary: Dict<string, Value>,
                                            exceptions: seq<string>, n: string)
    requires DistinctKeys(dictionary)
    decreases |dictionary|
    ensures var r := AddEntries(attrs, dictionary, exceptions);
      var g := Get(dictionary, n);
      if n !in exceptions && g.Some? && g.value != Null then n in r && r[n] == g.value
      else (n in r <==> n in attrs) && (n in attrs ==> r[n] == attrs[n])
  {
    if dictionary != [] {
      var item := dictionary[0].0;
      var v := dictionary[0].1;
      var a := if item in exceptions || v == Null then attrs else attrs[item := v];
      assert DistinctKeys(dictionary[1..]);
      AddEntriesEffect(a, dictionary[1..], exceptions, n);
      if item == n {
        GetAfterFirst(dictionary);
      }
    }
  }

  method AddToObj(obj: PhysicalObject, dictionary: Dict<string, Value>, exceptions: seq<string> := [])
    modifies obj
    ensures obj.attrs == AddEntries(old(obj.attrs), dictionary, exceptions)
    ensures obj.inputs == old(obj.inputs) && obj.inputsTuple == old(obj.inputsTuple) && obj.skipList == old(obj.skipList)
  {
    var i := 0;
    while i < |dictionary|
      invariant 0 <= i <= |dictionary|
      invariant AddEntries(old(obj.attrs), dictionary, exceptions) == AddEntries(obj.attrs, dictionary[i..], exceptions)
      invariant obj.inputs == old(obj.inputs) && obj.inputsTuple == old(obj.inputsTuple) && obj.skipList == old(obj.skipList)
    {
      var item := dictionary[i].0;
      var value := dictionary[i].1;
      assert dictionary[i..][1..] == dictionary[i + 1..];
      if item in exceptions {
        i := i + 1;
        continue;
      }
      if value != Null {
        obj.attrs := obj.attrs[item := value];
      }
      i := i + 1;
    }
  }

  // ---------------------------------------------------------------------------
  // add_to_obj on a soil and on a profile
  // ---------------------------------------------------------------------------

  /**
   * `add_to_obj` on a soil whose record holds numbers: each one is assigned
   * with `setattr`, so through the property setters, and the first setter
   * that raises ends the load with the assignments before it in place.
   */
  function AddToSoil(s: SoilState, dictionary: Dict<string, Option<real>>, exceptions: seq<string>): Step
    decreases |dictionary|
  {
    if dictionary == [] then Step(s, Pass)
    else
      var item := dictionary[0].0;
      var v := dictionary[0].1;
      if item in exceptions || v.None? then AddToSoil(s, dictionary[1..], exceptions)
      else
        var t := AssignAttribute(s, item, v.value);
        if t.outcome.Fail? then t else AddToSoil(t.state, dictionary[1..], exceptions)
  }

  method AddToSoilObject(soil: Soil, dictionary: Dict<string, Option<real>>, exceptions: seq<string>)
    returns (r: Outcome)
    modifies soil
    ensures Step(soil.State(), r) == AddToSoil(old(soil.State()), dictionary, exceptions)
  {
    var i := 0;
    while i < |dictionary|
      invariant 0 <= i <= |dictionary|
      invariant AddToSoil(old(soil.State()), dictionary, exceptions) ==
                AddToSoil(soil.State(), dictionary[i..], exceptions)
    {
      var item := dictionary[i].0;
      var value := dictionary[i].1;
      assert dictionary[i..][1..] == dictionary[i + 1..];
      if item in exceptions {
        i := i + 1;
        continue;
      }
      if value.Some? {
        r := soil.SetAttribute(item, value.value);
        if r.Fail? {
          return;
        }
      }
      i := i + 1;
    }
    return Pass;
  }

  /** `add_to_obj` on a soil profile; the layers are never touched. */
  function AddToProfile(p: ProfileSettings, dictionary: Dict<string, Option<real>>,
                        exceptions: seq<string>): (ProfileSettings, Outcome)
    decreases |dictionary|
  {
    if dictionary == [] then (p, Pass)
    else
      var item := dictionary[0].0;
      var v := dictionary[0].1;
      if item in exceptions || v.None? then AddToProfile(p, dictionary[1..], exceptions)
      else
        match AssignProfileAttribute(p, item, v.value)
        case Err(e) => (p, Fail(e))
        case Ok(q) => AddToProfile(q, dictionary[1..], exceptions)
  }

  method AddToProfileObject(profile: SoilProfile, dictionary: Dict<string, Option<real>>, exceptions: seq<string>)
    returns (r: Outcome)
    modifies profile
    ensures (profile.Settings(), r) == AddToProfile(old(profile.Settings()), dictionary, exceptions)
    ensures profile.layers == old(profile.layers)
  {
    var i := 0;
    while i < |dictionary|
      invariant 0 <= i <= |dictionary|
      invariant AddToProfile(old(profile.Settings()), dictionary, exceptions) ==
                AddToProfile(profile.Settings(), dictionary[i..], exceptions)
      invariant profile.layers == old(profile.layers)
    {
      var item := dictionary[i].0;
      var value := dictionary[i].1;
      assert dictionary[i..][1..] == dictionary[i + 1..];
      if item in exceptions {
        i := i + 1;
        continue;
      }
      if value.Some? {
        r := profile.SetAttribute(item, value.value);
        if r.Fail? {
          return;
        }
      }
      i := i + 1;
    }
    return Pass;
  }

  /** A soil with no void ratio, specific gravity or saturation set: every input setter then only stores. */
  predicate Plain(s: SoilState) {
    s.eCurr.None? && s.specificGravity.None? && s.saturation.None?
  }

  /** Assigning an input attribute of a plain soil stores exactly that value and keeps the soil plain. */
  lemma PlainAssign(s: SoilState, n: string, v: real)
    requires Plain(s) && n in Inputs
    ensures AssignAttribute(s, n, v).outcome == Pass
    ensures Plain(AssignAttribute(s, n, v).state)
    ensures forall m :: Attribute(AssignAttribute(s, n, v).state, m) ==
                        if m == n then Ok(Some(v)) else Attribute(s, m)
  {
    if n in {"g_mod", "poissons_ratio"} {
      PlainAssignExtra(s, n, v);
    } else if n in {"phi", "cohesion", "e_min", "e_max"} {
      PlainAssignStrength(s, n, v);
    } else if n in {"relative_density", "unit_dry_weight", "unit_sat_weight"} {
      PlainAssignCluster(s, n, v);
    } else {
      PlainAssignCritical(s, n, v);
    }
  }

  /** Assigning `n` to a plain soil returns, keeps it plain and changes attribute `n` alone, to `v`. */
  ghost predicate AssignsPlainly(s: SoilState, n: string, v: real) {
    var st := AssignAttribute(s, n, v);
    st.outcome == Pass && Plain(st.state) &&
    forall m :: Attribute(st.state, m) == if m == n then Ok(Some(v)) else Attribute(s, m)
  }

  lemma PlainAssignExtra(s: SoilState, n: string, v: real)
    requires Plain(s) && n in {"g_mod", "poissons_ratio"}
    ensures AssignsPlainly(s, n, v)
  {
    if n == "g_mod" {
      assert AssignAttribute(s, n, v) == Step(s.(extra := s.extra["g_mod" := v]), Pass);
    } else {
      assert AssignAttribute(s, n, v) == Step(s.(extra := s.extra["poissons_ratio" := v]), Pass);
    }
  }

  lemma PlainAssignStrength(s: SoilState, n: string, v: real)
    requires Plain(s) && n in {"phi", "cohesion", "e_min", "e_max"}
    ensures AssignsPlainly(s, n, v)
  {
    if n == "phi" {
      assert AssignAttribute(s, n, v) == Step(s.(phi := Some(v)), Pass);
    } else if n == "cohesion" {
      assert AssignAttribute(s, n, v) == Step(s.(cohesion := Some(v)), Pass);
    } else if n == "e_min" {
      assert AssignAttribute(s, n, v) == Step(s.(eMin := Some(v)), Pass);
    } else {
      assert AssignAttribute(s, n, v) == Step(s.(eMax := Some(v)), Pass);
    }
  }

  lemma PlainAssignCluster(s: SoilState, n: string, v: real)
    requires Plain(s) && n in {"relative_density", "unit_dry_weight", "unit_sat_weight"}
    ensures AssignsPlainly(s, n, v)
  {
    if n == "relative_density" {
      assert AssignAttribute(s, n, v) == Step(s.(relativeDensity := Some(v)), Pass);
    } else if n == "unit_dry_weight" {
      assert AssignAttribute(s, n, v) == Step(s.(unitDryWeight := Some(v)), Pass);
    } else {
      assert AssignAttribute(s, n, v) == Step(s.(unitSatWeight := Some(v)), Pass);
    }
  }

  lemma PlainAssignCritical(s: SoilState, n: string, v: real)
    requires Plain(s) && n in {"e_cr0", "p_cr0", "lamb_crl"}
    ensures AssignsPlainly(s, n, v)
  {
    if n == "e_cr0" {
      assert AssignAttribute(s, n, v) == Step(s.(eCr0 := v), Pass);
    } else if n == "p_cr0" {
      assert AssignAttribute(s, n, v) == Step(s.(pCr0 := v), Pass);
    } else {
      assert AssignAttribute(s, n, v) == Step(s.(lambCrl := v), Pass);
    }
  }

  /**
   * Loading a record of distinct input names into a plain soil never raises,
   * and each attribute ends up with the record's number for it, or what it
   * held before where the record has none.
   */
  lemma {:induction false} LoadPlain(s: SoilState, dictionary: Dict<string, Option<real>>)
    requires Plain(s) && DistinctKeys(dictionary)
    requires forall i :: 0 <= i < |dictionary| ==> dictionary[i].0 in Inputs
    decreases |dictionary|
    ensures AddToSoil(s, dictionary, []).outcome == Pass
    ensures Plain(AddToSoil(s, dictionary, []).state)
    ensures forall m :: Attribute(AddToSoil(s, dictionary, []).state, m) ==
                        if Get(dictionary, m).Some? && Get(dictionary, m).value.Some? then Ok(Get(dictionary, m).value)
                        else Attribute(s, m)
  {
    if dictionary != [] {
      var item := dictionary[0].0;
      var v := dictionary[0].1;
      assert DistinctKeys(dictionary[1..]);
      assert forall i :: 0 <= i < |dictionary[1..]| ==> dictionary[1..][i].0 in Inputs by {
        forall i | 0 <= i < |dictionary[1..]|
          ensures dictionary[1..][i].0 in Inputs
        {
          assert dictionary[1..][i] == dictionary[i + 1];
        }
      }
      assert item in Inputs by {
        assert dictionary[0].0 in Inputs;
      }
      GetAfterFirst(dictionary);
      if v.None? {
        LoadPlain(s, dictionary[1..]);
      } else {
        PlainAssign(s, item, v.value);
        LoadPlain(AssignAttribute(s, item, v.value).state, dictionary[1..]);
      }
    }
  }

  /** The numbers a soil holds under its input names, as a record read back from its export carries them. */
  function InputReadings(s: SoilState): (d: Dict<string, Option<real>>)
    requires forall n :: n in Inputs ==> Attribute(s, n).Ok?
    ensures Keys(d) == Inputs
  {
    seq(|Inputs|, i requires 0 <= i < |Inputs| => (Inputs[i], Attribute(s, Inputs[i]).value))
  }

  /**
   * The round trip: a soil whose inputs can all be read, loaded back from
   * the numbers under its input names into a new `Soil()`, reads the same
   * under every input name.
   */
  lemma ReloadInputs(s: SoilState)
    requires "g_mod" in s.extra && "poissons_ratio" in s.extra
    ensures forall n :: n in Inputs ==> Attribute(s, n).Ok?
    ensures AddToSoil(Fresh, InputReadings(s), []).outcome == Pass
    ensures forall n :: n in Inputs ==> Attribute(AddToSoil(Fresh, InputReadings(s), []).state, n) == Attribute(s, n)
  {
    InputsReadable(s);
    var d := InputReadings(s);
    InputsDistinct();
    assert DistinctKeys(d);
    LoadPlain(Fresh, d);
    forall n | n in Inputs
      ensures Attribute(AddToSoil(Fresh, d, []).state, n) == Attribute(s, n)
    {
      var i :| 0 <= i < |Inputs| && Inputs[i] == n;
      GetAt(d, i);
      if Attribute(s, n).value.None? {
        UnsetInput(s, n);
      }
    }
  }

  lemma InputsReadable(s: SoilState)
    requires "g_mod" in s.extra && "poissons_ratio" in s.extra
    ensures forall n :: n in Inputs ==> Attribute(s, n).Ok?
  {
  }

  lemma InputsDistinct()
    ensures forall i, j :: 0 <= i < j < |Inputs| ==> Inputs[i] != Inputs[j]
  {
  }

  /** An input a soil holds no number for is one a new soil holds no number for either. */
  lemma UnsetInput(s: SoilState, n: string)
    requires n in Inputs && "g_mod" in s.extra && "poissons_ratio" in s.extra
    requires Attribute(s, n) == Ok(None)
    ensures Attribute(Fresh, n) == Ok(None)
  {
  }

  // ---------------------------------------------------------------------------
  // int()
  // ---------------------------------------------------------------------------

  function DigitValue(c: char): nat
    requires '0' <= c <= '9'
  {
    c as int - '0' as int
  }

  function DigitChar(n: nat): char
    requires n < 10
  {
    ('0' as int + n) as char
  }

  /** A non-empty run of decimal digits, read as a number. */
  function ParseDigits(s: string): Option<nat> {
    if s == [] then None
    else
      var c := s[|s| - 1];
      if !('0' <= c <= '9') then None
      else if |s| == 1 then Some(DigitValue(c))
      else
        match ParseDigits(s[..|s| - 1])
        case None => None
        case Some(n) => Some(10 * n + DigitValue(c))
  }

  /** `int(s)` for a string: an optional sign and decimal digits. */
  function ParseInt(s: string): Option<int> {
    if s != [] && (s[0] == '-' || s[0] == '+') then
      match ParseDigits(s[1..])
      case None => None
      case Some(n) => Some(if s[0] == '-' then -(n as int) else n as int)
    else
      match ParseDigits(s)
      case None => None
      case Some(n) => Some(n)
  }

  /** The decimal digits of `n`, with no leading zero. */
  function Digits(n: nat): (s: string)
    ensures s != [] && forall i :: 0 <= i < |s| ==> '0' <= s[i] <= '9'
  {
    if n < 10 then [DigitChar(n)] else Digits(n / 10) + [DigitChar(n % 10)]
  }

  /** `str(n)` for an integer. */
  function DecimalString(n: int): string {
    if n < 0 then "-" + Digits(-n) else Digits(n)
  }

  lemma {:induction false} ParseDigitsOfDigits(n: nat)
    ensures ParseDigits(Digits(n)) == Some(n)
  {
    if n >= 10 {
      ParseDigitsOfDigits(n / 10);
      var s := Digits(n);
      assert s[..|s| - 1] == Digits(n / 10);
    }
  }

  /** Reading back what `str` writes for an integer gives that integer. */
  lemma ParseDecimal(n: int)
    ensures ParseInt(DecimalString(n)) == Some(n)
  {
    if n < 0 {
      ParseNegative(-n);
    } else {
      ParseDigitsOfDigits(n);
      var s := Digits(n);
      assert '0' <= s[0] <= '9';
    }
  }

  lemma ParseNegative(m: nat)
    ensures ParseInt("-" + Digits(m)) == Some(-(m as int))
  {
    ParseDigitsOfDigits(m);
    var s := "-" + Digits(m);
    assert s[0] == '-' && s[1..] == Digits(m);
  }

  /** `int(v)`. */
  function IntOf(v: Value): (r: Result<int>)
    ensures v.Int? ==> r == Ok(v.i)
    ensures v.Num? ==> r == Ok(Trunc(v.r))
    ensures v.Str? ==> (r.Ok? <==> ParseInt(v.s).Some?)
    ensures v.Str? && r.Ok? ==> r.value == ParseInt(v.s).value
    ensures r.Err? ==> r.error == (if v.Str? then ValueError else TypeError)
  {
    match v
    case Int(i) => Ok(i)
    case Num(x) => Ok(Trunc(x))
    case Bool(b) => Ok(if b then 1 else 0)
    case Str(s) => if ParseInt(s).Some? then Ok(ParseInt(s).value) else Err(ValueError)
    case _ => Err(TypeError)
  }

  // ---------------------------------------------------------------------------
  // ecp_dict_to_objects
  // ---------------------------------------------------------------------------

  /** `int(record["id"])`: a missing key and a `None` id both raise. */
  function RecordKey(record: Dict<string, Option<real>>): (r: Result<int>)
    ensures r.Ok? <==> Get(record, "id").Some? && Get(record, "id").value.Some?
    ensures r.Ok? ==> r.value == Trunc(Get(record, "id").value.value)
    ensures Get(record, "id") == None ==> r == Err(KeyError)
    ensures Get(record, "id") == Some(None) ==> r == Err(TypeError)
  {
    var id := Get(record, "id");
    if id.None? then Err(KeyError)
    else if id.value.None? then Err(TypeError)
    else Ok(Trunc(id.value.value))
  }

  /** Where a soil record's load fails: first the setters, then the id. */
  function SoilLoadError(record: Dict<string, Option<real>>): Option<Error> {
    var t := AddToSoil(Fresh, record, []);
    if t.outcome.Fail? then Some(t.outcome.error)
    else if RecordKey(record).Err? then Some(RecordKey(record).error)
    else None
  }

  /** One pass of the soils loop: a new soil, loaded from the record, keyed by its id. */
  method LoadSoil(record: Dict<string, Option<real>>) returns (r: Result<(int, Soil)>)
    ensures r.Err? <==> SoilLoadError(record).Some?
    ensures r.Err? ==> r.error == SoilLoadError(record).value
    ensures r.Ok? ==> fresh(r.value.1) && r.value.0 == RecordKey(record).value
    ensures r.Ok? ==> r.value.1.State() == AddToSoil(Fresh, record, []).state
  {
    var soil := new Soil();
    var outcome := AddToSoilObject(soil, record, []);
    if outcome.Fail? {
      return Err(outcome.error);
    }
    var key := RecordKey(record);
    if key.Err? {
      return Err(key.error);
    }
    return Ok((key.value, soil));
  }

  /** One entry of a profile record's `layers` list; `None` is a missing key. */
  datatype LayerRecord = LayerRecord(depth: Option<real>, soilId: Option<Value>)

  /** A profile record: its `layers` list, if present, and its other entries. */
  datatype ProfileRecord = ProfileRecord(layers: Option<seq<LayerRecord>>, entries: Dict<string, Option<real>>)

  /** The depth and the already loaded soil a layer entry names. */
  function ResolveLayer(l: LayerRecord, soils: map<int, Soil>): Result<(real, Soil)> {
    if l.depth.None? || l.soilId.None? then Err(KeyError)
    else
      match IntOf(l.soilId.value)
      case Err(e) => Err(e)
      case Ok(k) => if k in soils then Ok((l.depth.value, soils[k])) else Err(KeyError)
  }

  /** Every layer entry resolved, or the error of the first that is not. */
  function ResolveLayers(ls: seq<LayerRecord>, soils: map<int, Soil>): (r: Result<seq<(real, Soil)>>)
    ensures r.Ok? ==> |r.value| == |ls|
    ensures r.Ok? <==> forall j :: 0 <= j < |ls| ==> ResolveLayer(ls[j], soils).Ok?
    ensures r.Ok? ==> forall j :: 0 <= j < |ls| ==> r.value[j] == ResolveLayer(ls[j], soils).value
    ensures r.Err? ==> exists j :: 0 <= j < |ls| && ResolveLayer(ls[j], soils) == Err(r.error) &&
                                   forall i :: 0 <= i < j ==> ResolveLayer(ls[i], soils).Ok?
  {
    if ls == [] then Ok([])
    else
      match ResolveLayer(ls[0], soils)
      case Err(e) => Err(e)
      case Ok(l) =>
        match ResolveLayers(ls[1..], soils)
        case Err(e) =>
          ghost var j :| 0 <= j < |ls[1..]| && ResolveLayer(ls[1..][j], soils) == Err(e) &&
                         forall i :: 0 <= i < j ==> ResolveLayer(ls[1..][i], soils).Ok?;
          assert ResolveLayer(ls[j + 1], soils) == Err(e);
          Err(e)
        case Ok(rest) => Ok([l] + rest)
  }

  /** The value the last entry for key `k` gives, if any entry has key `k`. */
  function LastListed<V>(xs: seq<(real, V)>, k: real): Option<V> {
    if xs == [] then None
    else
      var rest := LastListed(xs[1..], k);
      if rest.Some? then rest else if xs[0].0 == k then Some(xs[0].1) else None
  }

  /** Where a profile record's load fails, in the order the loader reads the record. */
  function ProfileLoadError(record: ProfileRecord, soils: map<int, Soil>): Option<Error> {
    if Get(record.entries, "id").None? then Some(KeyError)
    else if record.layers.None? then Some(KeyError)
    else if ResolveLayers(record.layers.value, soils).Err? then Some(ResolveLayers(record.layers.value, soils).error)
    else
      var start := ProfileSettings(None, 9800.0, map["id" := Get(record.entries, "id").value]);
      var loaded := AddToProfile(start, record.entries, ["layers"]);
      if loaded.1.Fail? then Some(loaded.1.error)
      else if RecordKey(record.entries).Err? then Some(RecordKey(record.entries).error)
      else None
  }

  /**
   * One pass of the profiles loop: a new profile gets the record's id, adds
   * each listed layer in list order, and then takes the record's other
   * entries.  Its own depth-0 soil stays unless a listed layer is at depth 0.
   */
  method LoadProfile(record: ProfileRecord, soils: map<int, Soil>) returns (r: Result<(int, SoilProfile)>)
    ensures r.Err? <==> ProfileLoadError(record, soils).Some?
    ensures r.Err? ==> r.error == ProfileLoadError(record, soils).value
    ensures r.Ok? ==> fresh(r.value.1) && r.value.1.Valid() && r.value.0 == RecordKey(record.entries).value
    ensures r.Ok? ==>
      var listed := ResolveLayers(record.layers.value, soils).value;
      var p := r.value.1;
      (forall d :: LastListed(listed, d).Some? ==> Get(p.layers, d) == LastListed(listed, d)) &&
      (forall d :: LastListed(listed, d).None? && d != 0.0 ==> Get(p.layers, d) == None) &&
      (LastListed(listed, 0.0).None? ==>
         Get(p.layers, 0.0).Some? && fresh(Get(p.layers, 0.0).value) && Get(p.layers, 0.0).value.State() == Fresh)
    ensures r.Ok? ==>
      var start := ProfileSettings(None, 9800.0, map["id" := Get(record.entries, "id").value]);
      (r.value.1.Settings(), Pass) == AddToProfile(start, record.entries, ["layers"])
  {
    var profile := new SoilProfile();
    ghost var base := profile.layers[0].1;
    var id := Get(record.entries, "id");
    if id.None? {
      return Err(KeyError);
    }
    profile.SetId(id.value);
    if record.layers.None? {
      return Err(KeyError);
    }
    var ls := record.layers.value;
    ghost var listed: seq<(real, Soil)> := [];
    var j := 0;
    while j < |ls|
      invariant 0 <= j <= |ls|
      invariant fresh(profile) && profile.Valid() && fresh(base)
      invariant base.State() == Fresh
      invariant profile.Settings() == ProfileSettings(None, 9800.0, map["id" := id.value])
      invariant forall i :: 0 <= i < j ==> ResolveLayer(ls[i], soils).Ok?
      invariant |listed| == j && forall i :: 0 <= i < j ==> listed[i] == ResolveLayer(ls[i], soils).value
      invariant forall d :: LastListed(listed, d).Some? ==> Get(profile.layers, d) == LastListed(listed, d)
      invariant forall d :: LastListed(listed, d).None? && d != 0.0 ==> Get(profile.layers, d) == None
      invariant LastListed(listed, 0.0).None? ==> Get(profile.layers, 0.0) == Some(base)
    {
      var layer := ResolveLayer(ls[j], soils);
      if layer.Err? {
        assert ResolveLayers(ls, soils).Err?;
        return Err(layer.error);
      }
      var (depth, soil) := layer.value;
      profile.AddLayer(depth, soil);
      LastListedAppend(listed, (depth, soil));
      listed := listed + [(depth, soil)];
      j := j + 1;
    }
    assert listed == ResolveLayers(ls, soils).value;
    var outcome := AddToProfileObject(profile, record.entries, ["layers"]);
    if outcome.Fail? {
      return Err(outcome.error);
    }
    var key := RecordKey(record.entries);
    if key.Err? {
      return Err(key.error);
    }
    return Ok((key.value, profile));
  }

  /** A later entry for a key overrides every earlier one. */
  lemma {:induction false} LastListedAppend<V>(xs: seq<(real, V)>, e: (real, V))
    ensures forall k :: LastListed(xs + [e], k) == if k == e.0 then Some(e.1) else LastListed(xs, k)
  {
    if xs != [] {
      LastListedAppend(xs[1..], e);
      assert (xs + [e])[1..] == xs[1..] + [e];
    }
  }

  /** The soils loop of `ecp_dict_to_objects`; a later record with the same key replaces an earlier one. */
  method LoadSoils(records: seq<Dict<string, Option<real>>>) returns (r: Result<map<int, Soil>>)
    ensures r.Ok? ==> forall i :: 0 <= i < |records| ==> SoilLoadError(records[i]).None?
    ensures r.Ok? ==> forall k :: k in r.value <==> LastLoaded(records, k).Some?
    ensures r.Ok? ==> forall k :: k in r.value ==> r.value[k].State() == LastLoaded(records, k).value
    ensures r.Err? ==>
      exists i :: 0 <= i < |records| && SoilLoadError(records[i]) == Some(r.error) &&
        forall h :: 0 <= h < i ==> SoilLoadError(records[h]).None?
  {
    var soils: map<int, Soil> := map[];
    var i := 0;
    while i < |records|
      invariant 0 <= i <= |records|
      invariant forall h :: 0 <= h < i ==> SoilLoadError(records[h]).None?
      invariant forall k :: k in soils <==> LastLoaded(records[..i], k).Some?
      invariant forall k :: k in soils ==> soils[k].State() == LastLoaded(records[..i], k).value
    {
      var loaded := LoadSoil(records[i]);
      if loaded.Err? {
        return Err(loaded.error);
      }
      var (key, soil) := loaded.value;
      assert forall h :: 0 <= h < i + 1 ==> SoilLoadError(records[h]).None? by {
        forall h | 0 <= h < i + 1
          ensures SoilLoadError(records[h]).None?
        {
          if h == i {
            assert SoilLoadError(records[i]).None?;
          }
        }
      }
      forall k
        ensures LastLoaded(records[..i + 1], k) == (if k == key then Some(soil.State()) else LastLoaded(records[..i], k))
      {
        assert records[..i + 1][..i] == records[..i];
        assert records[..i + 1][i] == records[i];
      }
      soils := soils[key := soil];
      i := i + 1;
    }
    assert records[..i] == records;
    return Ok(soils);
  }

  /** The state of the soil the records leave under key `k`, if any: the last record with that key wins. */
  function LastLoaded(records: seq<Dict<string, Option<real>>>, k: int): Option<SoilState>
    decreases |records|
  {
    if records == [] then None
    else
      var last := records[|records| - 1];
      if RecordKey(last) == Ok(k) then Some(AddToSoil(Fresh, last, []).state)
      else LastLoaded(records[..|records| - 1], k)
  }

  /**
   * A key is loaded exactly when some record has it, and then it holds what
   * the last record with that key loads to.
   */
  lemma {:induction false} LastLoadedIsLast(records: seq<Dict<string, Option<real>>>, k: int)
    decreases |records|
    ensures LastLoaded(records, k).Some? <==> exists h :: 0 <= h < |records| && RecordKey(records[h]) == Ok(k)
    ensures LastLoaded(records, k).Some? ==>
      exists h :: 0 <= h < |records| && RecordKey(records[h]) == Ok(k) &&
        LastLoaded(records, k).value == AddToSoil(Fresh, records[h], []).state &&
        forall g :: h < g < |records| ==> RecordKey(records[g]) != Ok(k)
  {
    if records != [] {
      var n := |records| - 1;
      var front := records[..n];
      LastLoadedIsLast(front, k);
      assert forall h :: 0 <= h < n ==> front[h] == records[h];
      if RecordKey(records[n]) == Ok(k) {
        assert LastLoaded(records, k) == Some(AddToSoil(Fresh, records[n], []).state);
      } else {
        assert LastLoaded(records, k) == LastLoaded(front, k);
        if LastLoaded(front, k).Some? {
          var h :| 0 <= h < n && RecordKey(front[h]) == Ok(k) &&
            LastLoaded(front, k).value == AddToSoil(Fresh, front[h], []).state &&
            forall g :: h < g < n ==> RecordKey(front[g]) != Ok(k);
          assert RecordKey(records[h]) == Ok(k);
          assert forall g :: h < g < |records| ==> RecordKey(records[g]) != Ok(k);
        } else {
          assert forall h :: 0 <= h < |records| ==> RecordKey(records[h]) != Ok(k);
        }
      }
    }
  }

  /** The profiles loop of `ecp_dict_to_objects`, against the soils already loaded. */
  method LoadProfiles(records: seq<ProfileRecord>, soils: map<int, Soil>) returns (r: Result<map<int, SoilProfile>>)
    ensures r.Ok? ==> forall k :: k in r.value <==> exists i :: 0 <= i < |records| && RecordKey(records[i].entries) == Ok(k)
    ensures r.Ok? ==> forall k :: k in r.value ==> r.value[k].Valid()
    ensures r.Ok? ==> forall i :: 0 <= i < |records| ==> ProfileLoadError(records[i], soils).None?
    ensures r.Err? ==>
      exists i :: 0 <= i < |records| && ProfileLoadError(records[i], soils) == Some(r.error) &&
        forall h :: 0 <= h < i ==> ProfileLoadError(records[h], soils).None?
  {
    var profiles: map<int, SoilProfile> := map[];
    var j := 0;
    while j < |records|
      invariant 0 <= j <= |records|
      invariant forall h :: 0 <= h < j ==> ProfileLoadError(records[h], soils).None?
      invariant forall k :: k in profiles <==> exists h :: 0 <= h < j && RecordKey(records[h].entries) == Ok(k)
      invariant forall k :: k in profiles ==> profiles[k].Valid()
    {
      var loaded := LoadProfile(records[j], soils);
      if loaded.Err? {
        return Err(loaded.error);
      }
      var (key, profile) := loaded.value;
      profiles := profiles[key := profile];
      j := j + 1;
    }
    return Ok(profiles);
  }

  /**
   * `ecp_dict_to_objects` on the soil and profile categories: every soil
   * record first, then every profile record against the soils loaded.
   */
  method LoadModels(soilRecords: seq<Dict<string, Option<real>>>, profileRecords: seq<ProfileRecord>)
    returns (r: Result<(map<int, Soil>, map<int, SoilProfile>)>)
    ensures r.Ok? ==> forall i :: 0 <= i < |soilRecords| ==> SoilLoadError(soilRecords[i]).None?
    ensures r.Ok? ==> forall k :: k in r.value.0 <==> LastLoaded(soilRecords, k).Some?
    ensures r.Ok? ==> forall k :: k in r.value.0 ==> r.value.0[k].State() == LastLoaded(soilRecords, k).value
    ensures r.Ok? ==> forall k :: k in r.value.1 <==>
      exists i :: 0 <= i < |profileRecords| && RecordKey(profileRecords[i].entries) == Ok(k)
    ensures r.Ok? ==> forall k :: k in r.value.1 ==> r.value.1[k].Valid()
    ensures r.Ok? ==> forall j :: 0 <= j < |profileRecords| ==> ProfileLoadError(profileRecords[j], r.value.0).None?
    ensures (exists i :: 0 <= i < |soilRecords| && SoilLoadError(soilRecords[i]).Some?) ==>
      r.Err? &&
      exists i :: 0 <= i < |soilRecords| && SoilLoadError(soilRecords[i]) == Some(r.error) &&
        forall h :: 0 <= h < i ==> SoilLoadError(soilRecords[h]).None?
    ensures r.Err? && (forall i :: 0 <= i < |soilRecords| ==> SoilLoadError(soilRecords[i]).None?) ==>
      exists soils: map<int, Soil>, j ::
        (forall k :: k in soils <==> LastLoaded(soilRecords, k).Some?) &&
        0 <= j < |profileRecords| && ProfileLoadError(profileRecords[j], soils) == Some(r.error) &&
        forall h :: 0 <= h < j ==> ProfileLoadError(profileRecords[h], soils).None?
  {
    var soils := LoadSoils(soilRecords);
    if soils.Err? {
      return Err(soils.error);
    }
    var profiles := LoadProfiles(profileRecords, soils.value);
    if profiles.Err? {
      return Err(profiles.error);
    }
    return Ok((soils.value, profiles.value));
  }

  // ---------------------------------------------------------------------------
  // Output
  // ---------------------------------------------------------------------------

  const IdMessage := "id must be set on object before adding to output."

  /** `Output.models`: category name to an ordered dictionary from id to serialised object. */
  type Models = Dict<string, Dict<Value, Value>>

  /** The categories a new `Output` starts with, each empty. */
  const Categories: Models := [("soils", []), ("soil_profiles", []), ("foundations", []), ("buildings", []), ("systems", [])]

  function OptNum(o: Option<real>): Value {
    if o.Some? then Num(o.value) else Null
  }

  /** A soil's attributes as the serialiser reads them by name. */
  function SoilAttrs(s: SoilState): map<string, Value> {
    (map n | n in s.extra :: Num(s.extra[n])) + map[
      "phi" := OptNum(s.phi), "cohesion" := OptNum(s.cohesion),
      "unit_dry_weight" := OptNum(s.unitDryWeight), "e_min" := OptNum(s.eMin),
      "e_max" := OptNum(s.eMax), "e_curr" := OptNum(s.eCurr),
      "relative_density" := OptNum(s.relativeDensity), "specific_gravity" := OptNum(s.specificGravity),
      "unit_sat_weight" := OptNum(s.unitSatWeight), "saturation" := OptNum(s.saturation),
      "e_cr0" := Num(s.eCr0), "p_cr0" := Num(s.pCr0), "lamb_crl" := Num(s.lambCrl)]
  }

  /** The serialiser reads exactly the attributes `getattr` reads. */
  lemma SoilAttrsRead(s: SoilState, n: string)
    ensures n in SoilAttrs(s) <==> Attribute(s, n).Ok?
    ensures n in SoilAttrs(s) ==> SoilAttrs(s)[n] == OptNum(Attribute(s, n).value)
  {
    var named := ["phi", "cohesion", "unit_dry_weight", "e_min", "e_max", "e_curr", "relative_density",
                  "specific_gravity", "unit_sat_weight", "saturation", "e_cr0", "p_cr0", "lamb_crl"];
    if n !in named {
      assert Attribute(s, n) == if n in s.extra then Ok(Some(s.extra[n])) else Err(AttributeError(n));
    }
  }

  /** `soil.to_dict()`: every input, `None` included, through `serial`. */
  function SoilDict(s: SoilState, serial: Value -> Value): Result<Dict<string, Value>> {
    Serialise(SoilAttrs(s), [], true, serial, Inputs)
  }

  /**
   * A soil's export has an entry for every input and for nothing else; in
   * particular it has no `id` entry, so reading its `id` back raises KeyError.
   */
  lemma SoilDictEntries(s: SoilState, serial: Value -> Value, n: string)
    requires "g_mod" in s.extra && "poissons_ratio" in s.extra
    ensures SoilDict(s, serial).Ok?
    ensures n in Inputs ==> Attribute(s, n).Ok?
    ensures Get(SoilDict(s, serial).value, n) ==
            if n in Inputs then Some(serial(OptNum(Attribute(s, n).value))) else None
  {
    InputsReadable(s);
    forall m | m in Inputs
      ensures m in SoilAttrs(s)
    {
      SoilAttrsRead(s, m);
    }
    SerialiseEntries(SoilAttrs(s), [], true, serial, Inputs, n);
    if n in Inputs {
      SoilAttrsRead(s, n);
    }
  }

  /** Loading a soil record written by `add_to_dict` raises KeyError on its missing `id`. */
  lemma ExportedSoilHasNoKey(s: SoilState, serial: Value -> Value, record: Dict<string, Option<real>>)
    requires SoilDict(s, serial).Ok? && Keys(record) == Keys(SoilDict(s, serial).value)
    ensures RecordKey(record) == Err(KeyError)
  {
    SerialiseFails(SoilAttrs(s), [], true, serial, Inputs);
    SerialiseEntries(SoilAttrs(s), [], true, serial, Inputs, "id");
    GetPresent(SoilDict(s, serial).value, "id");
    GetPresent(record, "id");
  }

  /** A profile's attributes as the serialiser reads them; its `layers` entry is replaced before it is stored. */
  function ProfileAttrs(p: ProfileSettings): map<string, Value> {
    (map n | n in p.extra :: OptNum(p.extra[n])) + map[
      "gwl" := OptNum(p.gwl), "unit_weight_water" := Num(p.unitWeightWater), "layers" := Null]
  }

  /** `profile.to_dict()`, which cannot fail: every input of a profile is always set. */
  function ProfileDict(p: ProfileSettings, serial: Value -> Value): Dict<string, Value> {
    SerialiseFails(ProfileAttrs(p), [], true, serial, ProfileInputs);
    Serialise(ProfileAttrs(p), [], true, serial, ProfileInputs).value
  }

  const ProfileInputs: seq<string> := ["gwl", "unit_weight_water", "layers"]

  /** What `add_to_dict` reads of the object it is given. */
  datatype Item =
    | SoilItem(soil: SoilState)
    | ProfileItem(settings: ProfileSettings, layers: seq<(real, SoilState)>)

  /** `an_object.id`. */
  function ItemId(item: Item): Result<Option<real>> {
    match item
    case SoilItem(s) => Attribute(s, "id")
    case ProfileItem(p, _) => if "id" in p.extra then Ok(p.extra["id"]) else Err(AttributeError("id"))
  }

  /** The key a soil is registered under: its id as a value. */
  function SoilKey(s: SoilState): Value {
    if Attribute(s, "id").Ok? then OptNum(Attribute(s, "id").value) else Null
  }

  /** `models[category][key] = v`, which raises KeyError when the category is missing. */
  function Store(models: Models, category: string, key: Value, v: Value): (r: Result<Models>)
    ensures r.Ok? <==> Get(models, category).Some?
    ensures r.Err? ==> r.error == KeyError
  {
    match Get(models, category)
    case None => Err(KeyError)
    case Some(inner) => Ok(Put(models, category, Put(inner, key, v)))
  }

  /** One entry of a stored profile's `layers` list. */
  function LayerEntry(soilId: string, depth: real): Value {
    Map([(Str("soil_id"), Str(soilId)), (Str("depth"), Num(depth))])
  }

  /** What registering a profile's soils leaves: the models, the `layers` list so far, and the outcome. */
  datatype Registered = Registered(models: Models, entries: seq<Value>, outcome: Outcome)

  /**
   * The loop over a profile's layers: each soil's export is stored under its
   * id in the soils category and a layer entry is listed.  A raise ends the
   * loop and keeps the soils stored before it.
   */
  function RegisterLayers(models: Models, layers: seq<(real, SoilState)>,
                          serial: Value -> Value, show: Value -> string): Registered
    decreases |layers|
  {
    if layers == [] then Registered(models, [], Pass)
    else
      match RegisterLayer(models, layers[0], serial, show)
      case Err(e) => Registered(models, [], Fail(e))
      case Ok(step) =>
        var rest := RegisterLayers(step.0, layers[1..], serial, show);
        Registered(rest.models, [step.1] + rest.entries, rest.outcome)
  }

  /** One pass of the loop over a profile's layers: the models with the layer's soil stored, and its layer entry. */
  function RegisterLayer(models: Models, layer: (real, SoilState),
                         serial: Value -> Value, show: Value -> string): Result<(Models, Value)>
  {
    var (depth, s) := layer;
    match SoilDict(s, serial)
    case Err(e) => Err(e)
    case Ok(d) =>
      if Get(models, "soils").None? then Err(KeyError)
      else
        match Attribute(s, "id")
        case Err(e) => Err(e)
        case Ok(id) => Ok((Store(models, "soils", OptNum(id), Record(d)).value, LayerEntry(show(OptNum(id)), depth)))
  }

  /**
   * `add_to_dict(an_object)` on a soil or a profile: an unset id raises
   * before anything is stored; a soil is stored under its id; a profile
   * stores each of its soils and then itself with its `layers` list.
   */
  function AddToDictSpec(models: Models, item: Item, serial: Value -> Value, show: Value -> string): (r: (Models, Outcome))
    ensures ItemId(item).Err? ==> r == (models, Fail(ItemId(item).error))
    ensures ItemId(item) == Ok(None) ==> r == (models, Fail(ModelError(IdMessage)))
    ensures r.1.Fail? && item.SoilItem? ==> r.0 == models
    ensures item.SoilItem? && r.1 == Pass ==>
      SoilDict(item.soil, serial).Ok? &&
      Store(models, "soils", SoilKey(item.soil), Record(SoilDict(item.soil, serial).value)).Ok? &&
      r.0 == Store(models, "soils", SoilKey(item.soil), Record(SoilDict(item.soil, serial).value)).value
  {
    match ItemId(item)
    case Err(e) => (models, Fail(e))
    case Ok(id) =>
      if id.None? then (models, Fail(ModelError(IdMessage)))
      else
        match item
        case SoilItem(s) =>
          (match SoilDict(s, serial)
           case Err(e) => (models, Fail(e))
           case Ok(d) =>
             match Store(models, "soils", Num(id.value), Record(d))
             case Err(e) => (models, Fail(e))
             case Ok(m) => (m, Pass))
        case ProfileItem(p, layers) =>
          var pd := ProfileDict(p, serial);
          var reg := RegisterLayers(models, layers, serial, show);
          if reg.outcome.Fail? then (reg.models, reg.outcome)
          else
            match Store(reg.models, "soil_profiles", Num(id.value), Record(Put(pd, "layers", List(reg.entries))))
            case Err(e) => (reg.models, Fail(e))
            case Ok(m) => (m, Pass)
  }

  /** `add_to_dict` on a profile whose id is set, once the loop over its layers has left `m` and `entries`. */
  lemma ProfileBranch(models: Models, p: ProfileSettings, layers: seq<(real, SoilState)>,
                      serial: Value -> Value, show: Value -> string, m: Models, entries: seq<Value>, r: Outcome)
    requires "id" in p.extra && p.extra["id"].Some?
    requires RegisterLayers(models, layers, serial, show) == Registered(m, entries, r)
    ensures var stored := Store(m, "soil_profiles", Num(p.extra["id"].value),
                                Record(Put(ProfileDict(p, serial), "layers", List(entries))));
      AddToDictSpec(models, ProfileItem(p, layers), serial, show) ==
        if r.Fail? then (m, r)
        else if stored.Err? then (m, Fail(stored.error))
        else (stored.value, Pass)
  {
  }

  /** The soil registered last under `key` by the loop over `layers`, if any is. */
  function Registration(layers: seq<(real, SoilState)>, key: Value, serial: Value -> Value): Option<Value>
    decreases |layers|
  {
    if layers == [] then None
    else
      var rest := Registration(layers[1..], key, serial);
      if rest.Some? then rest
      else if SoilKey(layers[0].1) == key && SoilDict(layers[0].1, serial).Ok? then
        Some(Record(SoilDict(layers[0].1, serial).value))
      else None
  }

  /** The `layers` list of a stored profile: one {soil_id, depth} entry per layer, in the profile's order. */
  function LayerEntries(layers: seq<(real, SoilState)>, show: Value -> string): (es: seq<Value>)
    ensures |es| == |layers|
  {
    seq(|layers|, i requires 0 <= i < |layers| => LayerEntry(show(SoilKey(layers[i].1)), layers[i].0))
  }

  /** One pass of the loop over a profile's layers, when it goes through. */
  lemma RegisterStep(models: Models, layers: seq<(real, SoilState)>, serial: Value -> Value, show: Value -> string)
    requires layers != [] && Get(models, "soils").Some?
    requires RegisterLayers(models, layers, serial, show).outcome == Pass
    ensures SoilDict(layers[0].1, serial).Ok? && Attribute(layers[0].1, "id").Ok?
    ensures var m := Put(models, "soils", Put(Get(models, "soils").value, SoilKey(layers[0].1),
                                              Record(SoilDict(layers[0].1, serial).value)));
      var rest := RegisterLayers(m, layers[1..], serial, show);
      RegisterLayers(models, layers, serial, show) ==
        Registered(rest.models, [LayerEntry(show(SoilKey(layers[0].1)), layers[0].0)] + rest.entries, rest.outcome)
  {
  }

  /** The loop over a profile's layers keeps the set of categories and every category but soils. */
  lemma {:induction false} RegisterKeepsCategories(models: Models, layers: seq<(real, SoilState)>,
                                                   serial: Value -> Value, show: Value -> string, category: string)
    requires Get(models, "soils").Some?
    requires RegisterLayers(models, layers, serial, show).outcome == Pass
    decreases |layers|
    ensures Keys(RegisterLayers(models, layers, serial, show).models) == Keys(models)
    ensures Get(RegisterLayers(models, layers, serial, show).models, "soils").Some?
    ensures category != "soils" ==> Get(RegisterLayers(models, layers, serial, show).models, category) == Get(models, category)
  {
    if layers != [] {
      RegisterStep(models, layers, serial, show);
      var v := Put(Get(models, "soils").value, SoilKey(layers[0].1), Record(SoilDict(layers[0].1, serial).value));
      GetPresent(models, "soils");
      PutKeys(models, "soils", v);
      PutGet(models, "soils", v, category);
      PutGet(models, "soils", v, "soils");
      RegisterKeepsCategories(Put(models, "soils", v), layers[1..], serial, show, category);
    }
  }

  /** After the loop over a profile's layers, each soil key holds the last soil registered under it. */
  lemma {:induction false} RegisterSoils(models: Models, layers: seq<(real, SoilState)>,
                                         serial: Value -> Value, show: Value -> string, key: Value)
    requires Get(models, "soils").Some?
    requires RegisterLayers(models, layers, serial, show).outcome == Pass
    decreases |layers|
    ensures Get(RegisterLayers(models, layers, serial, show).models, "soils").Some?
    ensures Get(Get(RegisterLayers(models, layers, serial, show).models, "soils").value, key) ==
      if Registration(layers, key, serial).Some? then Registration(layers, key, serial)
      else Get(Get(models, "soils").value, key)
  {
    RegisterKeepsCategories(models, layers, serial, show, "soils");
    if layers != [] {
      RegisterStep(models, layers, serial, show);
      var inner := Get(models, "soils").value;
      var v := Put(inner, SoilKey(layers[0].1), Record(SoilDict(layers[0].1, serial).value));
      PutGet(models, "soils", v, "soils");
      PutGet(inner, SoilKey(layers[0].1), Record(SoilDict(layers[0].1, serial).value), key);
      RegisterSoils(Put(models, "soils", v), layers[1..], serial, show, key);
    }
  }

  /** The loop over a profile's layers lists one entry per layer, in order. */
  lemma {:induction false} RegisterEntries(models: Models, layers: seq<(real, SoilState)>,
                                           serial: Value -> Value, show: Value -> string)
    requires Get(models, "soils").Some?
    requires RegisterLayers(models, layers, serial, show).outcome == Pass
    decreases |layers|
    ensures RegisterLayers(models, layers, serial, show).entries == LayerEntries(layers, show)
  {
    if layers != [] {
      RegisterStep(models, layers, serial, show);
      var v := Put(Get(models, "soils").value, SoilKey(layers[0].1), Record(SoilDict(layers[0].1, serial).value));
      PutGet(models, "soils", v, "soils");
      RegisterEntries(Put(models, "soils", v), layers[1..], serial, show);
      assert LayerEntries(layers, show) ==
             [LayerEntry(show(SoilKey(layers[0].1)), layers[0].0)] + LayerEntries(layers[1..], show);
    }
  }

  /** Once the loop completes, every layer's soil is registered. */
  lemma {:induction false} EveryLayerRegistered(models: Models, layers: seq<(real, SoilState)>,
                                                serial: Value -> Value, show: Value -> string, j: nat)
    requires RegisterLayers(models, layers, serial, show).outcome == Pass
    requires j < |layers|
    decreases j
    ensures Registration(layers, SoilKey(layers[j].1), serial).Some?
  {
    var s := layers[0].1;
    var m := Store(models, "soils", OptNum(Attribute(s, "id").value), Record(SoilDict(s, serial).value)).value;
    if j > 0 {
      assert layers[1..][j - 1] == layers[j];
      EveryLayerRegistered(m, layers[1..], serial, show, j - 1);
    }
  }

  /**
   * What `add_to_dict` leaves after storing a profile: its record under its
   * id, whose `layers` entry lists the layers in order; each soil key
   * holding the last soil registered under it; and the categories other
   * than soils and soil_profiles, and the set of categories, unchanged.
   */
  lemma ProfileExport(models: Models, p: ProfileSettings, layers: seq<(real, SoilState)>,
                      serial: Value -> Value, show: Value -> string, category: string, key: Value)
    requires Get(models, "soils").Some?
    requires AddToDictSpec(models, ProfileItem(p, layers), serial, show).1 == Pass
    ensures "id" in p.extra && p.extra["id"].Some?
    ensures var m := AddToDictSpec(models, ProfileItem(p, layers), serial, show).0;
      Keys(m) == Keys(models) &&
      (category != "soils" && category != "soil_profiles" ==> Get(m, category) == Get(models, category)) &&
      Get(m, "soil_profiles").Some? &&
      Get(Get(m, "soil_profiles").value, Num(p.extra["id"].value)) ==
        Some(Record(Put(ProfileDict(p, serial), "layers", List(LayerEntries(layers, show))))) &&
      Get(m, "soils").Some? &&
      Get(Get(m, "soils").value, key) ==
        (if Registration(layers, key, serial).Some? then Registration(layers, key, serial)
         else Get(Get(models, "soils").value, key))
  {
    var reg := RegisterLayers(models, layers, serial, show);
    RegisterKeepsCategories(models, layers, serial, show, category);
    RegisterKeepsCategories(models, layers, serial, show, "soil_profiles");
    RegisterSoils(models, layers, serial, show, key);
    RegisterEntries(models, layers, serial, show);
    var id := p.extra["id"].value;
    var v := Record(Put(ProfileDict(p, serial), "layers", List(reg.entries)));
    var inner := Get(reg.models, "soil_profiles").value;
    GetPresent(reg.models, "soil_profiles");
    PutKeys(reg.models, "soil_profiles", Put(inner, Num(id), v));
    PutGet(reg.models, "soil_profiles", Put(inner, Num(id), v), category);
    PutGet(reg.models, "soil_profiles", Put(inner, Num(id), v), "soils");
    PutGet(reg.models, "soil_profiles", Put(inner, Num(id), v), "soil_profiles");
    PutGet(inner, Num(id), v, Num(id));
  }

  /** `models[mtype][m_id] = d` after creating the category if it is missing. */
  function WithEntry(models: Models, mtype: string, mId: Value, d: Value): Models {
    var inner := if Get(models, mtype).Some? then Get(models, mtype).value else [];
    Put(models, mtype, Put(inner, mId, d))
  }

  /**
   * `add_to_output` sets `models[mtype][m_id]` and nothing else: a missing
   * category is appended, and every other entry reads as before.
   */
  lemma WithEntryEffect(models: Models, mtype: string, mId: Value, d: Value, category: string, key: Value)
    ensures var m := WithEntry(models, mtype, mId, d);
      Keys(m) == (if mtype in Keys(models) then Keys(models) else Keys(models) + [mtype]) &&
      (category != mtype ==> Get(m, category) == Get(models, category)) &&
      Get(m, mtype).Some? &&
      Get(Get(m, mtype).value, key) ==
        (if key == mId then Some(d) else if Get(models, mtype).Some? then Get(Get(models, mtype).value, key) else None)
  {
    var inner := if Get(models, mtype).Some? then Get(models, mtype).value else [];
    GetPresent(models, mtype);
    PutKeys(models, mtype, Put(inner, mId, d));
    PutGet(models, mtype, Put(inner, mId, d), category);
    PutGet(models, mtype, Put(inner, mId, d), mtype);
    PutGet(inner, mId, d, key);
  }

  /** The states of a profile's layers, shallowest first. */
  function LayerStates(ls: Dict<real, Soil>): (r: seq<(real, SoilState)>)
    reads set l | l in ls :: l.1
    ensures |r| == |ls|
    ensures forall i :: 0 <= i < |ls| ==> r[i] == (ls[i].0, ls[i].1.State())
  {
    if ls == [] then []
    else LayerStates(ls[..|ls| - 1]) + [(ls[|ls| - 1].0, ls[|ls| - 1].1.State())]
  }

  /** The objects `add_to_dict` is modelled on. */
  datatype ModelObject = SoilObject(soil: Soil) | ProfileObject(profile: SoilProfile)

  /** The value `Output.to_dict` exports for `models`. */
  function ModelsValue(models: Models): Value {
    Map(seq(|models|, i requires 0 <= i < |models| => (Str(models[i].0), Map(models[i].1))))
  }

  class Output {
    var name: string
    var units: string
    var doi: string
    var sfsimodelsVersion: string
    var comments: string
    var models: Models

    /** A new `Output`: empty metadata and the five empty categories, in order. */
    constructor ()
      ensures Keys(models) == ["soils", "soil_profiles", "foundations", "buildings", "systems"]
      ensures forall i :: 0 <= i < |models| ==> models[i].1 == []
      ensures name == "" && units == "" && doi == "" && sfsimodelsVersion == "" && comments == ""
    {
      name, units, doi, sfsimodelsVersion, comments := "", "", "", "", "";
      models := Categories;
    }

    static function Parameters(): seq<string> {
      ["name", "units", "doi", "sfsimodels_version", "comments", "models"]
    }

    /** `self.__getattribute__(item)` for a parameter name. */
    function Field(item: string): Value
      reads this
    {
      match item
      case "name" => Str(name)
      case "units" => Str(units)
      case "doi" => Str(doi)
      case "sfsimodels_version" => Str(sfsimodelsVersion)
      case "comments" => Str(comments)
      case "models" => ModelsValue(models)
      case _ => Null
    }

    /** `to_dict()`: each parameter, in order, with its value. */
    method ToDict() returns (r: Dict<string, Value>)
      ensures Keys(r) == Parameters()
      ensures forall i :: 0 <= i < |r| ==> r[i].1 == Field(r[i].0)
    {
      var ps := Parameters();
      r := [];
      var i := 0;
      while i < |ps|
        invariant 0 <= i <= |ps|
        invariant Keys(r) == ps[..i]
        invariant forall k :: 0 <= k < |r| ==> r[k].1 == Field(r[k].0)
      {
        assert ps[i] !in ps[..i];
        PutNew(r, ps[i], Field(ps[i]));
        r := Put(r, ps[i], Field(ps[i]));
        assert ps[..i + 1] == ps[..i] + [ps[i]];
        i := i + 1;
      }
    }

    /** `add_to_output(mtype, m_id, serialisable_dict)`. */
    method AddToOutput(mtype: string, mId: Value, d: Value)
      modifies this
      ensures models == WithEntry(old(models), mtype, mId, d)
      ensures name == old(name) && units == old(units) && doi == old(doi)
      ensures sfsimodelsVersion == old(sfsimodelsVersion) && comments == old(comments)
    {
      ghost var m0 := models;
      if Get(models, mtype).None? {
        models := Put(models, mtype, []);
        PutGet(m0, mtype, [], mtype);
      }
      var inner := Get(models, mtype).value;
      var updated := Put(inner, mId, d);
      PutTwice(m0, mtype, [], updated);
      models := Put(models, mtype, updated);
    }

    /** `add_to_dict(an_object)` for a soil or a soil profile. */
    method AddToDict(x: ModelObject, serial: Value -> Value, show: Value -> string) returns (r: Outcome)
      modifies this
      ensures x.SoilObject? ==>
        (models, r) == AddToDictSpec(old(models), SoilItem(x.soil.State()), serial, show)
      ensures x.ProfileObject? ==>
        (models, r) == AddToDictSpec(old(models), ProfileItem(x.profile.Settings(), LayerStates(x.profile.layers)), serial, show)
      ensures name == old(name) && units == old(units) && doi == old(doi)
      ensures sfsimodelsVersion == old(sfsimodelsVersion) && comments == old(comments)
    {
      match x
      case SoilObject(soil) => r := AddSoil(soil, serial, show);
      case ProfileObject(profile) => r := AddProfile(profile, serial, show);
    }

    /** The soil branch of `add_to_dict`. */
    method AddSoil(soil: Soil, serial: Value -> Value, show: Value -> string) returns (r: Outcome)
      modifies this
      ensures (models, r) == AddToDictSpec(old(models), SoilItem(soil.State()), serial, show)
      ensures name == old(name) && units == old(units) && doi == old(doi)
      ensures sfsimodelsVersion == old(sfsimodelsVersion) && comments == old(comments)
    {
      var id := Attribute(soil.State(), "id");
      if id.Err? {
        return Fail(id.error);
      }
      if id.value.None? {
        return Fail(ModelError(IdMessage));
      }
      var d := SoilDict(soil.State(), serial);
      if d.Err? {
        return Fail(d.error);
      }
      var stored := Store(models, "soils", Num(id.value.value), Record(d.value));
      if stored.Err? {
        return Fail(stored.error);
      }
      models := stored.value;
      return Pass;
    }

    /** The profile branch of `add_to_dict`. */
    method AddProfile(profile: SoilProfile, serial: Value -> Value, show: Value -> string) returns (r: Outcome)
      modifies this
      ensures (models, r) == AddToDictSpec(old(models), old(ProfileItem(profile.Settings(), LayerStates(profile.layers))), serial, show)
      ensures name == old(name) && units == old(units) && doi == old(doi)
      ensures sfsimodelsVersion == old(sfsimodelsVersion) && comments == old(comments)
    {
      if "id" !in profile.extra {
        return Fail(AttributeError("id"));
      }
      var id := profile.extra["id"];
      if id.None? {
        return Fail(ModelError(IdMessage));
      }
      var settings := profile.Settings();
      var profileDict := ProfileDict(settings, serial);
      var layers := LayerStates(profile.layers);
      // the list is filled in place after it is put into the dictionary, so storing it last is the same
      var m, entries;
      m, entries, r := StoreLayers(models, layers, serial, show);
      ProfileBranch(models, settings, layers, serial, show, m, entries, r);
      if r.Fail? {
        models := m;
        return;
      }
      var stored := Store(m, "soil_profiles", Num(id.value), Record(Put(profileDict, "layers", List(entries))));
      if stored.Err? {
        models := m;
        return Fail(stored.error);
      }
      models := stored.value;
      return Pass;
    }
  }

  /** The loop of `add_to_dict` over a profile's layers, which stores each layer's soil and lists its entry. */
  method StoreLayers(models: Models, layers: seq<(real, SoilState)>, serial: Value -> Value, show: Value -> string)
    returns (m: Models, entries: seq<Value>, r: Outcome)
    ensures RegisterLayers(models, layers, serial, show) == Registered(m, entries, r)
  {
    m := models;
    entries := [];
    var j := 0;
    assert layers[j..] == layers;
    while j < |layers|
      invariant 0 <= j <= |layers|
      invariant var rest := RegisterLayers(m, layers[j..], serial, show);
        RegisterLayers(models, layers, serial, show) == Registered(rest.models, entries + rest.entries, rest.outcome)
    {
      var (depth, soil) := layers[j];
      assert layers[j..][0] == layers[j] && layers[j..][1..] == layers[j + 1..];
      var d := SoilDict(soil, serial);
      if d.Err? {
        return m, entries, Fail(d.error);
      }
      if Get(m, "soils").None? {
        return m, entries, Fail(KeyError);
      }
      var soilId := Attribute(soil, "id");
      if soilId.Err? {
        return m, entries, Fail(soilId.error);
      }
      m := Store(m, "soils", OptNum(soilId.value), Record(d.value)).value;
      entries := entries + [LayerEntry(show(OptNum(soilId.value)), depth)];
      j := j + 1;
    }
    assert layers[j..] == [];
    r := Pass;
  }
}
