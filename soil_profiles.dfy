/**
 * A soil profile: soils stacked by the depth of the top of each layer, kept
 * in ascending depth order, with the total and effective vertical stress at
 * any depth.
 */
module SoilProfiles {
  import opened Wrappers
  import opened Exceptions
  import opened Builtins
  import opened OrderedDicts
  import opened Soils

  // ---------------------------------------------------------------------------
  // Depth order
  // ---------------------------------------------------------------------------

  /** Depths strictly ascending, the order `_sort_layers` leaves. */
  predicate Ascending<V>(d: Dict<real, V>) {
    forall i, j :: 0 <= i < j < |d| ==> d[i].0 < d[j].0
  }

  /** Places one entry before the first entry of no smaller depth. */
  function Insert<V>(e: (real, V), d: Dict<real, V>): Dict<real, V> {
    if d == [] then [e]
    else if e.0 <= d[0].0 then [e] + d
    else [d[0]] + Insert(e, d[1..])
  }

  /** `sorted(d.items(), key=depth)`. */
  function SortByDepth<V>(d: Dict<real, V>): Dict<real, V> {
    if d == [] then [] else Insert(d[0], SortByDepth(d[1..]))
  }

  lemma {:induction false} InsertEntries<V>(e: (real, V), d: Dict<real, V>)
    ensures multiset(Insert(e, d)) == multiset(d) + multiset{e}
  {
    if d != [] && e.0 > d[0].0 {
      InsertEntries(e, d[1..]);
      assert d == [d[0]] + d[1..];
    }
  }

  lemma {:induction false} InsertAscending<V>(e: (real, V), d: Dict<real, V>)
    requires Ascending(d)
    requires forall i :: 0 <= i < |d| ==> d[i].0 != e.0
    ensures Ascending(Insert(e, d))
  {
    if d != [] && e.0 > d[0].0 {
      InsertAscending(e, d[1..]);
      InsertEntries(e, d[1..]);
      var r := Insert(e, d[1..]);
      forall j | 0 <= j < |r|
        ensures d[0].0 < r[j].0
      {
        assert r[j] in multiset(r);
        assert r[j] == e || r[j] in d[1..];
      }
    }
  }

  /** Sorting keeps exactly the same entries. */
  lemma {:induction false} SortEntries<V>(d: Dict<real, V>)
    ensures multiset(SortByDepth(d)) == multiset(d)
  {
    if d != [] {
      SortEntries(d[1..]);
      InsertEntries(d[0], SortByDepth(d[1..]));
      assert d == [d[0]] + d[1..];
    }
  }

  /** Sorting entries whose depths are distinct puts the depths in strictly ascending order. */
  lemma {:induction false} SortAscending<V>(d: Dict<real, V>)
    requires DistinctKeys(d)
    ensures Ascending(SortByDepth(d))
  {
    if d != [] {
      assert DistinctKeys(d[1..]);
      SortAscending(d[1..]);
      SortEntries(d[1..]);
      var s := SortByDepth(d[1..]);
      forall i | 0 <= i < |s|
        ensures s[i].0 != d[0].0
      {
        assert s[i] in multiset(d[1..]);
      }
      InsertAscending(d[0], s);
    }
  }

  /** In strictly ascending order a depth reads the value of the one entry holding it. */
  lemma {:induction false} GetEntry<V>(d: Dict<real, V>, k: real, v: V)
    requires Ascending(d)
    ensures Get(d, k) == Some(v) <==> (k, v) in d
  {
    if d != [] {
      GetEntry(d[1..], k, v);
      if d[0].0 == k {
        assert (k, v) in d[1..] ==> false;
      }
    }
  }

  lemma GetFirst<V>(d: Dict<real, V>)
    requires d != []
    ensures Get(d, d[0].0) == Some(d[0].1)
  {
  }

  /** Two strictly ascending tables that read alike everywhere are the same table. */
  lemma {:induction false} AscendingDetermined<V>(a: Dict<real, V>, b: Dict<real, V>)
    requires Ascending(a) && Ascending(b)
    requires forall k :: Get(a, k) == Get(b, k)
    ensures a == b
  {
    if a != [] {
      GetFirst(a);
      assert Get(b, a[0].0).Some?;
    }
    if b != [] {
      GetFirst(b);
      assert Get(a, b[0].0).Some?;
    }
    if a != [] && b != [] {
      GetPresent(a, b[0].0);
      GetPresent(b, a[0].0);
      assert a[0].0 == b[0].0;
      assert a[0] == b[0];
      forall k
        ensures Get(a[1..], k) == Get(b[1..], k)
      {
        assert Get(a, k) == Get(b, k);
        if k == a[0].0 {
          GetPresent(a[1..], k);
          GetPresent(b[1..], k);
          forall j | 0 <= j < |a| - 1
            ensures Keys(a[1..])[j] != k
          {
            assert a[1..][j] == a[j + 1];
          }
          forall j | 0 <= j < |b| - 1
            ensures Keys(b[1..])[j] != k
          {
            assert b[1..][j] == b[j + 1];
          }
        }
      }
      AscendingDetermined(a[1..], b[1..]);
    }
  }

  /** Removing an entry keeps the rest strictly ascending. */
  lemma {:induction false} RemoveAscending<V>(d: Dict<real, V>, k: real)
    requires Ascending(d)
    ensures Ascending(Remove(d, k))
  {
    if d != [] {
      RemoveAscending(d[1..], k);
      if d[0].0 != k {
        var r := Remove(d[1..], k);
        forall j | 0 <= j < |r|
          ensures d[0].0 < r[j].0
        {
          RemoveEntry(d[1..], k, r[j]);
          var m :| 0 <= m < |d[1..]| && d[1..][m] == r[j];
          assert d[m + 1] == r[j];
        }
      }
    }
  }

  // ---------------------------------------------------------------------------
  // Vertical stress
  // ---------------------------------------------------------------------------

  /** Each layer's top depth and the unit weight of its soil, top layer first. */
  type Column = seq<(real, Option<real>)>

  /**
   * How much of layer `i` lies above depth `z`: the part of the layer, from
   * its top down to the next layer's top, that is shallower than `z`.  The
   * last layer reaches down without bound.
   */
  function Thickness(c: Column, i: nat, z: real): real
    requires i < |c|
  {
    var above := if z > c[i].0 then z - c[i].0 else 0.0;
    if i + 1 < |c| && above > c[i + 1].0 - c[i].0 then c[i + 1].0 - c[i].0 else above
  }

  /** The weight of soil a layer of `height` and `unitWeight` puts on what lies below. */
  function LayerLoad(height: real, unitWeight: real): real {
    height * unitWeight
  }

  /**
   * The stress the first `n` layers put on depth `z`.  A layer whose top is
   * above `z` but whose soil has no unit weight fails as Python's `TypeError`.
   */
  function StressOf(c: Column, n: nat, z: real): Result<real>
    requires n <= |c|
  {
    if n == 0 then Ok(0.0)
    else
      match StressOf(c, n - 1, z)
      case Err(e) => Err(e)
      case Ok(t) =>
        if z <= c[n - 1].0 then Ok(t)
        else if c[n - 1].1.None? then Err(TypeError)
        else Ok(t + LayerLoad(Thickness(c, n - 1, z), c[n - 1].1.value))
  }

  /** The total vertical stress at depth `z`. */
  function TotalStress(c: Column, z: real): Result<real> {
    StressOf(c, |c|, z)
  }

  /** The effective vertical stress: the total stress less the pore pressure below the water table. */
  function EffectiveStress(c: Column, gwl: Option<real>, unitWeightWater: real, z: real): Result<real> {
    match TotalStress(c, z)
    case Err(e) => Err(e)
    case Ok(t) =>
      if gwl.None? then Err(TypeError)
      else Ok(t - PorePressure(z, gwl.value, unitWeightWater))
  }

  /** The water pressure at depth `z`, nothing above the water table `gwl`. */
  function PorePressure(z: real, gwl: real, unitWeightWater: real): (u: real)
    ensures z <= gwl ==> u == 0.0
    ensures z >= gwl ==> u == (z - gwl) * unitWeightWater
  {
    (if z - gwl >= 0.0 then z - gwl else 0.0) * unitWeightWater
  }

  /**
   * `crust_effective_unit_weight`: the mean effective unit weight of the top
   * layer over its height `h`, the depth of the second layer; no value
   * without a second layer.
   */
  function CrustEffectiveUnitWeight(c: Column, gwl: Option<real>, unitWeightWater: real): (r: Result<Option<real>>)
    ensures r == Ok(None) <==> |c| <= 1
    ensures |c| > 1 ==> (r.Ok? <==> c[0].1.Some? && gwl.Some? && c[1].0 != 0.0)
    ensures |c| > 1 && r.Err? ==>
      r.error == (if c[0].1.Some? && gwl.Some? then ZeroDivisionError else TypeError)
    ensures r.Ok? && r.value.Some? ==>
      var h := c[1].0;
      r.value.value * h == LayerLoad(h, c[0].1.value) - (h - gwl.value) * unitWeightWater
  {
    if |c| <= 1 then Ok(None)
    else
      var h := c[1].0;
      if c[0].1.None? || gwl.None? then Err(TypeError)
      else if h == 0.0 then Err(ZeroDivisionError)
      else
        var totalStressBase := LayerLoad(h, c[0].1.value);
        var porePressureBase := (h - gwl.value) * unitWeightWater;
        Ok(Some((totalStressBase - porePressureBase) / h))
  }

  /** The stress fails exactly when a layer above `z` has no unit weight; it only ever fails as `TypeError`. */
  lemma {:induction false} StressFails(c: Column, n: nat, z: real)
    requires n <= |c|
    ensures StressOf(c, n, z).Err? <==> exists j :: 0 <= j < n && z > c[j].0 && c[j].1.None?
    ensures StressOf(c, n, z).Err? ==> StressOf(c, n, z).error == TypeError
  {
    if n > 0 {
      StressFails(c, n - 1, z);
    }
  }

  /** Layers whose tops lie at or below `z` add nothing to the stress at `z`. */
  lemma {:induction false} StressBelow(c: Column, k: nat, n: nat, z: real)
    requires Ascending(c)
    requires k <= n <= |c|
    requires k < |c| ==> z <= c[k].0
    ensures StressOf(c, n, z) == StressOf(c, k, z)
  {
    if n > k {
      StressBelow(c, k, n - 1, z);
    }
  }

  /** The layers above layer `i` weigh the same on any depth at or below layer `i`'s top. */
  lemma {:induction false} StressOfFullLayers(c: Column, i: nat, n: nat, z: real)
    requires Ascending(c)
    requires n <= i < |c| && z >= c[i].0
    ensures StressOf(c, n, z) == StressOf(c, n, c[i].0)
  {
    if n > 0 {
      StressOfFullLayers(c, i, n - 1, z);
      assert Thickness(c, n - 1, z) == Thickness(c, n - 1, c[i].0);
    }
  }

  /** No stress at or above the top of the first layer. */
  lemma ZeroAboveFirstLayer(c: Column, z: real)
    requires Ascending(c)
    requires c != [] ==> z <= c[0].0
    ensures TotalStress(c, z) == Ok(0.0)
  {
    StressBelow(c, 0, |c|, z);
  }

  /**
   * Within layer `i`, between its top and the next layer's top (the last
   * layer without bound), the stress grows linearly with the layer's unit
   * weight from its value at the layer's top.
   */
  lemma PiecewiseLinear(c: Column, i: nat, z: real)
    requires Ascending(c)
    requires i < |c|
    requires c[i].0 <= z && (i + 1 < |c| ==> z <= c[i + 1].0)
    requires forall j :: 0 <= j <= i ==> c[j].1.Some?
    ensures TotalStress(c, z).Ok? && TotalStress(c, c[i].0).Ok?
    ensures TotalStress(c, z).value == TotalStress(c, c[i].0).value + (z - c[i].0) * c[i].1.value
  {
    StressBelow(c, i + 1, |c|, z);
    StressBelow(c, i, |c|, c[i].0);
    StressOfFullLayers(c, i, i, z);
    StressFails(c, i, z);
    var t := StressOf(c, i, z);
    assert t.Ok?;
    StressBelow(c, i, i + 1, c[i].0);
  }

  /** With no negative unit weight, the stress never falls with depth. */
  lemma {:induction false} StressMonotone(c: Column, n: nat, y: real, z: real)
    requires n <= |c|
    requires Ascending(c)
    requires forall j :: 0 <= j < |c| ==> c[j].1.Some? && c[j].1.value >= 0.0
    requires y <= z
    ensures StressOf(c, n, y).Ok? && StressOf(c, n, z).Ok?
    ensures StressOf(c, n, y).value <= StressOf(c, n, z).value
  {
    if n > 0 {
      StressMonotone(c, n - 1, y, z);
      ThicknessGrows(c, n - 1, y, z);
      LoadGrows(Thickness(c, n - 1, y), Thickness(c, n - 1, z), c[n - 1].1.value);
      StressStep(c, n, y);
      StressStep(c, n, z);
    }
  }

  /** The part of layer `i` above a depth grows with the depth, from nothing at the layer's top. */
  lemma ThicknessGrows(c: Column, i: nat, y: real, z: real)
    requires Ascending(c) && i < |c| && y <= z
    ensures 0.0 <= Thickness(c, i, y) <= Thickness(c, i, z)
    ensures y <= c[i].0 ==> Thickness(c, i, y) == 0.0
  {
    if i + 1 < |c| {
      assert c[i].0 < c[i + 1].0;
    }
  }

  lemma LoadGrows(a: real, b: real, w: real)
    requires 0.0 <= a <= b && w >= 0.0
    ensures LayerLoad(a, w) <= LayerLoad(b, w)
  {
    assert (b - a) * w >= 0.0;
  }

  /** Each layer with a unit weight adds its load over the part of it above `z`. */
  lemma StressStep(c: Column, n: nat, z: real)
    requires Ascending(c) && 0 < n <= |c| && c[n - 1].1.Some?
    requires StressOf(c, n - 1, z).Ok?
    ensures StressOf(c, n, z) ==
      Ok(StressOf(c, n - 1, z).value + LayerLoad(Thickness(c, n - 1, z), c[n - 1].1.value))
  {
    if z <= c[n - 1].0 {
      ThicknessGrows(c, n - 1, z, z);
      assert LayerLoad(0.0, c[n - 1].1.value) == 0.0;
    }
  }

  /** Above the water table the effective stress is the total stress. */
  lemma EffectiveIsTotalAboveWater(c: Column, gwl: real, unitWeightWater: real, z: real)
    requires z <= gwl
    ensures EffectiveStress(c, Some(gwl), unitWeightWater, z) == TotalStress(c, z)
  {
  }

  /**
   * The crust unit weight is the effective stress at the crust's base spread
   * over its height, when the top layer starts at the surface and the water
   * table is not below the crust.
   */
  lemma CrustWeighsEffectiveStress(c: Column, gwl: real, unitWeightWater: real)
    requires Ascending(c) && |c| > 1
    requires c[0].0 == 0.0 && c[0].1.Some?
    requires gwl <= c[1].0
    ensures var r := CrustEffectiveUnitWeight(c, Some(gwl), unitWeightWater);
      r.Ok? && r.value.Some? &&
      EffectiveStress(c, Some(gwl), unitWeightWater, c[1].0) == Ok(LayerLoad(c[1].0, r.value.value))
  {
    var h, w := c[1].0, c[0].1.value;
    assert 0.0 < h;
    PiecewiseLinear(c, 0, h);
    ZeroAboveFirstLayer(c, 0.0);
    assert h - c[0].0 == h;
    assert TotalStress(c, c[0].0) == Ok(0.0);
    assert TotalStress(c, h).value == 0.0 + (h - c[0].0) * w;
    assert TotalStress(c, h).value == h * w;
    assert LayerLoad(h, w) == h * w;
    assert TotalStress(c, h) == Ok(LayerLoad(h, w));
    assert EffectiveStress(c, Some(gwl), unitWeightWater, h) == Ok(LayerLoad(h, w) - (h - gwl) * unitWeightWater);
    var r := CrustEffectiveUnitWeight(c, Some(gwl), unitWeightWater);
    var u := r.value.value;
    assert LayerLoad(h, u) == u * h == LayerLoad(h, w) - (h - gwl) * unitWeightWater;
  }

  /** Two soils, 18000 N/m3 from the surface to 5 m and 19000 N/m3 below. */
  lemma TwoLayerStresses()
    ensures TotalStress([(0.0, Some(18000.0)), (5.0, Some(19000.0))], 3.0) == Ok(54000.0)
    ensures TotalStress([(0.0, Some(18000.0)), (5.0, Some(19000.0))], 7.0) == Ok(5.0 * 18000.0 + 2.0 * 19000.0)
  {
    var c := [(0.0, Some(18000.0)), (5.0, Some(19000.0))];
    assert Thickness(c, 0, 3.0) == 3.0;
    assert StressOf(c, 1, 3.0) == Ok(LayerLoad(3.0, 18000.0));
    assert StressOf(c, 2, 3.0) == StressOf(c, 1, 3.0);
    assert Thickness(c, 0, 7.0) == 5.0;
    assert Thickness(c, 1, 7.0) == 2.0;
    assert StressOf(c, 1, 7.0) == Ok(LayerLoad(5.0, 18000.0));
    assert StressOf(c, 2, 7.0) == Ok(LayerLoad(5.0, 18000.0) + LayerLoad(2.0, 19000.0));
  }

  // ---------------------------------------------------------------------------
  // The profile
  // ---------------------------------------------------------------------------

  /** A depth, a list of depths. */
  datatype Depths = Scalar(z: real) | Array(zs: seq<real>)

  /** The stress at one depth, or at each of a list of depths. */
  datatype Stresses = One(stress: real) | Many(stresses: seq<real>)

  /** The column a list of layers describes, reading each soil's unit weight. */
  function ColumnOf(ls: Dict<real, Soil>): (c: Column)
    reads set l | l in ls :: l.1
    ensures |c| == |ls|
    ensures forall i :: 0 <= i < |ls| ==> c[i] == (ls[i].0, UnitWeight(ls[i].1.State()))
  {
    if ls == [] then []
    else ColumnOf(ls[..|ls| - 1]) + [(ls[|ls| - 1].0, UnitWeight(ls[|ls| - 1].1.State()))]
  }

  /** The profile's read-only properties; assigning one raises AttributeError. */
  const ProfileReadOnly: set<string> := {"layers", "depths", "equivalent_crust_cohesion", "crust_effective_unit_weight",
                                         "attributes", "ancestor_types"}

  /** The scalar attributes of a profile, apart from its layers. */
  datatype ProfileSettings = ProfileSettings(gwl: Option<real>, unitWeightWater: real, extra: map<string, Option<real>>)

  /** `setattr(profile, name, v)` for a number `v`: a read-only property raises, anything else is stored. */
  function AssignProfileAttribute(p: ProfileSettings, name: string, v: real): (r: Result<ProfileSettings>)
    ensures r.Err? <==> name in ProfileReadOnly
    ensures r.Err? ==> r.error == AttributeError(name)
    ensures name == "gwl" ==> r == Ok(p.(gwl := Some(v)))
    ensures name == "unit_weight_water" ==> r == Ok(p.(unitWeightWater := v))
    ensures r.Ok? && name != "gwl" && name != "unit_weight_water" ==>
      r.value == p.(extra := p.extra[name := Some(v)])
  {
    if name == "gwl" then Ok(p.(gwl := Some(v)))
    else if name == "unit_weight_water" then Ok(p.(unitWeightWater := v))
    else if name in ProfileReadOnly then Err(AttributeError(name))
    else Ok(p.(extra := p.extra[name := Some(v)]))
  }

  class SoilProfile {
    /** Depth of each layer's top and its soil; the same soil may fill several layers. */
    var layers: Dict<real, Soil>
    var gwl: Option<real>
    var unitWeightWater: real
    /** Attributes set by name with no property of their own, such as `id`. */
    var extra: map<string, Option<real>>

    ghost predicate Valid()
      reads this
    {
      Ascending(layers)
    }

    /** The soils the profile's layers hold. */
    function Soils(): set<Soil>
      reads this
    {
      set l | l in layers :: l.1
    }

    function AsColumn(): Column
      reads this, Soils()
    {
      ColumnOf(layers)
    }

    function Settings(): ProfileSettings
      reads this
    {
      ProfileSettings(gwl, unitWeightWater, extra)
    }

    /** A new profile holds one fresh soil at depth 0. */
    constructor ()
      ensures Valid()
      ensures |layers| == 1 && layers[0].0 == 0.0
      ensures fresh(layers[0].1) && layers[0].1.State() == Fresh
      ensures gwl == None && unitWeightWater == 9800.0 && extra == map[]
    {
      var soil := new Soil();
      layers := [(0.0, soil)];
      gwl := None;
      unitWeightWater := 9800.0;
      extra := map[];
    }

    /** `depths`: the layer tops, shallowest first. */
    function Depths(): (ds: seq<real>)
      reads this
      ensures |ds| == |layers|
      ensures Valid() ==> forall i, j :: 0 <= i < j < |ds| ==> ds[i] < ds[j]
    {
      Keys(layers)
    }

    /** `n_layers()`. */
    function NLayers(): (n: nat)
      reads this
      ensures n == |Depths()|
    {
      |layers|
    }

    /** `layer(i)`: the soil of the `i`-th layer, counting from the end for a negative `i`. */
    function Layer(index: int): (r: Result<Soil>)
      reads this
      ensures r.Ok? <==> -|layers| <= index < |layers|
      ensures r.Err? ==> r.error == IndexError
    {
      match ListIndex(|layers|, index)
      case None => Err(IndexError)
      case Some(i) => Ok(layers[i].1)
    }

    /** `layer_depth(i)`: the top of the `i`-th layer, with the same indexing. */
    function LayerDepth(index: int): (r: Result<real>)
      reads this
      ensures r.Ok? <==> -|layers| <= index < |layers|
      ensures r.Err? ==> r.error == IndexError
    {
      match ListIndex(|Depths()|, index)
      case None => Err(IndexError)
      case Some(i) => Ok(Depths()[i])
    }

    /** `add_layer(depth, soil)`: puts `soil` at `depth`, replacing the soil already there, and re-sorts. */
    method AddLayer(depth: real, soil: Soil)
      requires Valid()
      modifies this
      ensures Valid()
      ensures layers == SortByDepth(Put(old(layers), depth, soil))
      ensures forall d :: Get(layers, d) == if d == depth then Some(soil) else Get(old(layers), d)
      ensures gwl == old(gwl) && unitWeightWater == old(unitWeightWater) && extra == old(extra)
    {
      var put := Put(layers, depth, soil);
      PutDistinct(layers, depth, soil);
      SortAscending(put);
      SortEntries(put);
      layers := SortByDepth(put);
      forall d
        ensures Get(layers, d) == Get(put, d)
      {
        AscendingGets(put, layers, d);
      }
      forall d
        ensures Get(put, d) == if d == depth then Some(soil) else Get(old(layers), d)
      {
        PutGet(old(layers), depth, soil, d);
      }
    }

    /** `remove_layer(depth)`: `KeyError` when no layer starts at `depth`. */
    method RemoveLayer(depth: real) returns (r: Outcome)
      requires Valid()
      modifies this
      ensures Valid()
      ensures r == Pass <==> depth in Keys(old(layers))
      ensures r.Fail? ==> r.error == KeyError && layers == old(layers)
      ensures r == Pass ==> layers == Remove(old(layers), depth)
      ensures forall d :: Get(layers, d) == if d == depth then None else Get(old(layers), d)
      ensures gwl == old(gwl) && unitWeightWater == old(unitWeightWater) && extra == old(extra)
    {
      GetPresent(layers, depth);
      if depth !in Keys(layers) {
        return Fail(KeyError);
      }
      RemoveAscending(layers, depth);
      forall d
        ensures Get(Remove(layers, depth), d) == if d == depth then None else Get(layers, d)
      {
        RemoveGet(layers, depth, d);
      }
      layers := Remove(layers, depth);
      return Pass;
    }

    /** `one_vertical_total_stress(z)`. */
    method OneVerticalTotalStress(z: real) returns (r: Result<real>)
      requires Valid()
      ensures r == TotalStress(AsColumn(), z)
    {
      ghost var c := AsColumn();
      var total := 0.0;
      var ds := Depths();
      assert |c| == |ds|;
      var i := 0;
      while i < |ds|
        invariant 0 <= i <= |ds|
        invariant StressOf(c, i, z) == Ok(total)
      {
        assert c[i] == (ds[i], UnitWeight(layers[i].1.State()));
        if z > ds[i] {
          var w := UnitWeight(layers[i].1.State());
          if w.None? {
            StressFails(c, i + 1, z);
            StressFails(c, |c|, z);
            return Err(TypeError);
          }
          if i < |ds| - 1 && z > ds[i + 1] {
            var height := ds[i + 1] - ds[i];
            assert c[i + 1].0 == ds[i + 1];
            assert Thickness(c, i, z) == height;
            total := total + LayerLoad(height, w.value);
            assert StressOf(c, i + 1, z) == Ok(total);
          } else {
            var height := z - ds[i];
            assert i + 1 < |c| ==> c[i + 1].0 == ds[i + 1];
            assert Thickness(c, i, z) == height;
            total := total + LayerLoad(height, w.value);
            assert StressOf(c, i + 1, z) == Ok(total);
            StressBelow(c, i + 1, |c|, z);
            break;
          }
        } else {
          assert StressOf(c, i + 1, z) == Ok(total);
        }
        i := i + 1;
      }
      return Ok(total);
    }

    /** `vertical_total_stress(z)`: at one depth, or depth by depth in order. */
    method VerticalTotalStress(q: Depths) returns (r: Result<Stresses>)
      requires Valid()
      ensures q.Scalar? ==>
        (r.Ok? <==> TotalStress(AsColumn(), q.z).Ok?) &&
        (r.Ok? ==> r.value == One(TotalStress(AsColumn(), q.z).value))
      ensures q.Array? ==>
        (r.Ok? <==> forall k :: 0 <= k < |q.zs| ==> TotalStress(AsColumn(), q.zs[k]).Ok?) &&
        (r.Ok? ==> r.value.Many? && |r.value.stresses| == |q.zs| &&
                   (forall k :: 0 <= k < |q.zs| ==> r.value.stresses[k] == TotalStress(AsColumn(), q.zs[k]).value))
      ensures r.Err? ==> r.error == TypeError
    {
      if q.Scalar? {
        var s := OneVerticalTotalStress(q.z);
        StressFails(AsColumn(), |AsColumn()|, q.z);
        if s.Err? {
          return Err(s.error);
        }
        return Ok(One(s.value));
      }
      var sigmas: seq<real> := [];
      var k := 0;
      while k < |q.zs|
        invariant 0 <= k <= |q.zs|
        invariant |sigmas| == k
        invariant forall m :: 0 <= m < k ==> TotalStress(AsColumn(), q.zs[m]).Ok? &&
                                             sigmas[m] == TotalStress(AsColumn(), q.zs[m]).value
      {
        var s := OneVerticalTotalStress(q.zs[k]);
        if s.Err? {
          StressFails(AsColumn(), |AsColumn()|, q.zs[k]);
          return Err(s.error);
        }
        sigmas := sigmas + [s.value];
        k := k + 1;
      }
      return Ok(Many(sigmas));
    }

    /** `vertical_effective_stress(z)` at a single depth. */
    method VerticalEffectiveStress(z: real) returns (r: Result<real>)
      requires Valid()
      ensures r == EffectiveStress(AsColumn(), gwl, unitWeightWater, z)
    {
      var total := OneVerticalTotalStress(z);
      if total.Err? {
        return Err(total.error);
      }
      if gwl.None? {
        return Err(TypeError);
      }
      return Ok(total.value - PorePressure(z, gwl.value, unitWeightWater));
    }

    /** `setattr(self, name, v)`: the layers are never touched. */
    method SetAttribute(name: string, v: real) returns (r: Outcome)
      modifies this
      ensures var a := AssignProfileAttribute(old(Settings()), name, v);
        if a.Ok? then r == Pass && Settings() == a.value
        else r == Fail(a.error) && Settings() == old(Settings())
      ensures layers == old(layers)
    {
      if name == "gwl" {
        gwl := Some(v);
      } else if name == "unit_weight_water" {
        unitWeightWater := v;
      } else if name in ProfileReadOnly {
        return Fail(AttributeError(name));
      } else {
        extra := extra[name := Some(v)];
      }
      return Pass;
    }

    /** `self.id = v`, where `v` may be `None`. */
    method SetId(v: Option<real>)
      modifies this
      ensures Settings() == old(Settings()).(extra := old(extra)["id" := v])
      ensures layers == old(layers)
    {
      extra := extra["id" := v];
    }
  }

  /** Two tables with the same entries and distinct depths read alike. */
  lemma AscendingGets<V>(a: Dict<real, V>, b: Dict<real, V>, k: real)
    requires DistinctKeys(a) && Ascending(b)
    requires multiset(a) == multiset(b)
    ensures Get(a, k) == Get(b, k)
  {
    DistinctGetEntry(a, k);
    match Get(b, k)
    case None =>
      if Get(a, k).Some? {
        var v := Get(a, k).value;
        assert (k, v) in multiset(a);
        GetEntry(b, k, v);
      }
    case Some(v) =>
      GetEntry(b, k, v);
      assert (k, v) in multiset(a);
  }

  /** With distinct keys a key reads the value of the one entry holding it. */
  lemma {:induction false} DistinctGetEntry<V>(d: Dict<real, V>, k: real)
    requires DistinctKeys(d)
    ensures forall v :: Get(d, k) == Some(v) <==> (k, v) in d
  {
    if d != [] {
      assert DistinctKeys(d[1..]);
      DistinctGetEntry(d[1..], k);
    }
  }
}
