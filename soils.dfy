/**
 * The `Soil` entity of sfsimodels/models/soils.py: independent strength
 * parameters and the volume-and-weight cluster whose property setters derive
 * missing peers, reject disagreeing ones, or store the value raw when a peer
 * they would need is unset.
 *
 * Each setter is modelled twice: a function `AssignX` on the value `SoilState`
 * (it composes, because setters call each other) and a method `Soil.SetX` on
 * the object, which updates the fields step by step as the source does and is
 * proved to reach the state and outcome the function gives.  Quantities are
 * reals, so the source's exact float comparisons become exact equalities.
 */
module Soils {
  import opened Wrappers
  import opened Exceptions

  /** `_pw`, the specific weight of water used by the cluster relations. */
  const PW: real := 1000.0

  const DryWeightMessage := "New unit dry weight is inconsistent with specific gravity and void ratio"
  const VoidRatioMessage := "New void ratio inconsistent with relative_density"
  const GravityMessage := "specific gravity is inconsistent with set unit_dry_weight and void_ratio"
  const SatWeightMessage := "new unit_sat_weight is inconsistent with other soil parameters"
  const DensityMessage := "New relative_density is inconsistent with e_curr"

  /** Everything a `Soil` stores.  `None` is an unset attribute. */
  datatype SoilState = SoilState(
    phi: Option<real>,
    cohesion: Option<real>,
    unitDryWeight: Option<real>,
    eMin: Option<real>,
    eMax: Option<real>,
    eCurr: Option<real>,
    relativeDensity: Option<real>,
    specificGravity: Option<real>,
    unitSatWeight: Option<real>,
    saturation: Option<real>,
    eCr0: real,
    pCr0: real,
    lambCrl: real,
    // attributes assigned by name that the class declares no property for (g_mod, id, ...)
    extra: map<string, real>)

  /** A freshly constructed `Soil()`. */
  const Fresh := SoilState(None, None, None, None, None, None, None, None, None, None, 0.0, 0.0, 0.0, map[])

  /** The state a setter leaves and whether it returned (`Pass`) or raised. */
  datatype Step = Step(state: SoilState, outcome: Outcome)

  // ---------------------------------------------------------------------------
  // The relations tying the cluster together
  // ---------------------------------------------------------------------------

  /** `_unit_void_volume`: the volume of the voids in a unit of total volume. */
  function UnitVoidVolume(e: real): real
    requires 1.0 + e != 0.0
  {
    e / (1.0 + e)
  }

  /** `_unit_moisture_weight`: the weight of the water in a unit of total volume. */
  function UnitMoistureWeight(saturation: real, e: real): real
    requires 1.0 + e != 0.0
  {
    saturation * UnitVoidVolume(e) * PW
  }

  /** The void ratio that a relative density places between e_max and e_min. */
  function VoidRatioFromDensity(eMax: real, eMin: real, density: real): real {
    eMax - density * (eMax - eMin)
  }

  /** The relative density of void ratio `e` between e_max and e_min. */
  function DensityFromVoidRatio(eMax: real, eMin: real, e: real): real
    requires eMax - eMin != 0.0
  {
    (eMax - e) / (eMax - eMin)
  }

  /** The specific gravity of solids with void ratio `e` and dry weight `dryWeight`. */
  function GravityFrom(e: real, dryWeight: real): real {
    (1.0 + e) * dryWeight / PW
  }

  /** The dry weight of solids of specific gravity `gravity` at void ratio `e`. */
  function DryWeightFrom(gravity: real, e: real): real
    requires 1.0 + e != 0.0
  {
    gravity * PW / (1.0 + e)
  }

  /** The void ratio of solids of specific gravity `gravity` at dry weight `dryWeight`. */
  function VoidRatioFrom(gravity: real, dryWeight: real): real
    requires dryWeight != 0.0
  {
    gravity * PW / dryWeight - 1.0
  }

  /** The saturation at which `moistureVolume` of water fills the voids of void ratio `e`. */
  function SaturationFrom(moistureVolume: real, e: real): real
    requires 1.0 + e != 0.0 && e != 0.0
  {
    moistureVolume / UnitVoidVolume(e)
  }

  /** The void volume that `moistureVolume` of water fills at `saturation`. */
  function VoidVolumeFrom(moistureVolume: real, saturation: real): real
    requires saturation != 0.0
  {
    moistureVolume / saturation
  }

  /** The dry weight of a unit volume whose solids of specific gravity `gravity` leave `voidVolume` void. */
  function DryWeightFromVoids(voidVolume: real, gravity: real): real {
    (1.0 - voidVolume) * gravity * PW
  }

  /** e_curr = e_max - relative_density * (e_max - e_min), wherever all four are set. */
  predicate VoidRatioAgrees(s: SoilState) {
    s.eCurr.Some? && s.eMax.Some? && s.eMin.Some? && s.relativeDensity.Some? ==>
      s.eCurr.value == VoidRatioFromDensity(s.eMax.value, s.eMin.value, s.relativeDensity.value)
  }

  /** specific_gravity = (1 + e_curr) * unit_dry_weight / pw, wherever all three are set. */
  predicate GravityAgrees(s: SoilState) {
    s.eCurr.Some? && s.unitDryWeight.Some? && s.specificGravity.Some? ==>
      s.specificGravity.value == GravityFrom(s.eCurr.value, s.unitDryWeight.value)
  }

  /** unit_sat_weight = unit_dry_weight + saturation * e/(1+e) * pw, wherever all four are set. */
  predicate SatWeightAgrees(s: SoilState) {
    s.eCurr.Some? && s.unitDryWeight.Some? && s.saturation.Some? && s.unitSatWeight.Some? &&
    1.0 + s.eCurr.value != 0.0 ==>
      s.unitSatWeight.value ==
        UnitMoistureWeight(s.saturation.value, s.eCurr.value) + s.unitDryWeight.value
  }

  // ---------------------------------------------------------------------------
  // The setters, as functions on the state
  // ---------------------------------------------------------------------------

  /** `e_curr = v`: checked against the relative density when e_max, e_min and it are set. */
  function AssignECurr(s: SoilState, v: real): Step {
    if s.eMax.Some? && s.eMin.Some? && s.relativeDensity.Some? then
      var voidRatio := VoidRatioFromDensity(s.eMax.value, s.eMin.value, s.relativeDensity.value);
      if voidRatio != v then Step(s, Fail(ModelError(VoidRatioMessage))) else Step(s, Pass)
    else
      Step(s.(eCurr := Some(v)), Pass)
  }

  /** `unit_dry_weight = v`: stored first, then checked against or used to derive a peer. */
  function AssignUnitDryWeight(s: SoilState, v: real): Step {
    var s1 := s.(unitDryWeight := Some(v));
    if s1.eCurr.Some? then
      var gravity := GravityFrom(s1.eCurr.value, v);
      if s1.specificGravity.None? then Step(s1.(specificGravity := Some(gravity)), Pass)
      else if s1.specificGravity.value != gravity then Step(s1, Fail(ModelError(DryWeightMessage)))
      else Step(s1, Pass)
    else if s1.specificGravity.Some? then
      if v == 0.0 then Step(s1, Fail(ZeroDivisionError))
      else AssignECurr(s1, VoidRatioFrom(s1.specificGravity.value, v))
    else
      Step(s1, Pass)
  }

  /** `specific_gravity = v`: stored first, then checked against or used to derive the dry weight. */
  function AssignSpecificGravity(s: SoilState, v: real): Step {
    var s1 := s.(specificGravity := Some(v));
    if s1.eCurr.None? then Step(s1, Pass)
    else if 1.0 + s1.eCurr.value == 0.0 then Step(s1, Fail(ZeroDivisionError))
    else
      var dryWeight := DryWeightFrom(v, s1.eCurr.value);
      if s1.unitDryWeight.None? then AssignUnitDryWeight(s1, dryWeight)
      else if s1.unitDryWeight.value != dryWeight then Step(s1, Fail(ModelError(GravityMessage)))
      else Step(s1, Pass)
  }

  /** `relative_density = v`: checked against e_curr when e_max, e_min and e_curr are set. */
  function AssignRelativeDensity(s: SoilState, v: real): Step {
    if s.eMax.Some? && s.eCurr.Some? && s.eMin.Some? then
      if s.eMax.value - s.eMin.value == 0.0 then Step(s, Fail(ZeroDivisionError))
      else
        var density := DensityFromVoidRatio(s.eMax.value, s.eMin.value, s.eCurr.value);
        if density != v then Step(s, Fail(ModelError(DensityMessage)))
        else Step(s.(relativeDensity := Some(v)), Pass)
    else
      Step(s.(relativeDensity := Some(v)), Pass)
  }

  /**
   * `unit_sat_weight = v`: checked when saturation, e_curr and the dry weight
   * are all set; otherwise stored, after which the saturation and then the dry
   * weight are rederived from it where the peers allow.
   */
  function AssignUnitSatWeight(s: SoilState, v: real): Step {
    if s.eCurr.Some? && 1.0 + s.eCurr.value == 0.0 then Step(s, Fail(ZeroDivisionError))
    else if s.eCurr.Some? && s.saturation.Some? && s.unitDryWeight.Some? then
      var satWeight := UnitMoistureWeight(s.saturation.value, s.eCurr.value) + s.unitDryWeight.value;
      if satWeight != v then Step(s, Fail(ModelError(SatWeightMessage))) else Step(s, Pass)
    else
      var s1 := s.(unitSatWeight := Some(v));
      if s1.unitDryWeight.None? then Step(s1, Pass)
      else
        var moistureWeight := v - s1.unitDryWeight.value;
        var moistureVolume := moistureWeight / PW;
        if s1.eCurr.Some? && UnitVoidVolume(s1.eCurr.value) == 0.0 then Step(s1, Fail(ZeroDivisionError))
        else
          var s2 := if s1.eCurr.Some? then s1.(saturation := Some(SaturationFrom(moistureVolume, s1.eCurr.value))) else s1;
          if s2.saturation.None? then Step(s2, Pass)
          else if s2.saturation.value == 0.0 then Step(s2, Fail(ZeroDivisionError))
          else
            var voidVolume := VoidVolumeFrom(moistureVolume, s2.saturation.value);
            if s2.specificGravity.Some? then
              AssignUnitDryWeight(s2, DryWeightFromVoids(voidVolume, s2.specificGravity.value))
            else if s2.eCurr.Some? then
              AssignUnitDryWeight(s2, v - moistureWeight)
            else
              Step(s2, Pass)
  }

  /** The names of the read-only properties; assigning one raises AttributeError. */
  const ReadOnly: set<string> := {"unit_weight", "porosity", "moisture_content", "phi_r", "k_0", "n1_60",
                                  "_unit_void_volume", "_unit_solid_volume", "_unit_moisture_weight",
                                  "attributes", "ancestor_types"}

  /** `setattr(soil, name, v)`: the property setter of that name, or a plain instance attribute. */
  function AssignAttribute(s: SoilState, name: string, v: real): Step {
    match name
    case "phi" => Step(s.(phi := Some(v)), Pass)
    case "cohesion" => Step(s.(cohesion := Some(v)), Pass)
    case "unit_dry_weight" => AssignUnitDryWeight(s, v)
    case "e_min" => Step(s.(eMin := Some(v)), Pass)
    case "e_max" => Step(s.(eMax := Some(v)), Pass)
    case "e_curr" => AssignECurr(s, v)
    case "relative_density" => AssignRelativeDensity(s, v)
    case "specific_gravity" => AssignSpecificGravity(s, v)
    case "unit_sat_weight" => AssignUnitSatWeight(s, v)
    case "saturation" => Step(s.(saturation := Some(v)), Pass)
    case "e_cr0" => Step(s.(eCr0 := v), Pass)
    case "p_cr0" => Step(s.(pCr0 := v), Pass)
    case "lamb_crl" => Step(s.(lambCrl := v), Pass)
    case _ =>
      if name in ReadOnly then Step(s, Fail(AttributeError(name)))
      else Step(s.(extra := s.extra[name := v]), Pass)
  }

  /** `getattr(soil, name)` for a name that is not read-only. */
  function Attribute(s: SoilState, name: string): Result<Option<real>> {
    match name
    case "phi" => Ok(s.phi)
    case "cohesion" => Ok(s.cohesion)
    case "unit_dry_weight" => Ok(s.unitDryWeight)
    case "e_min" => Ok(s.eMin)
    case "e_max" => Ok(s.eMax)
    case "e_curr" => Ok(s.eCurr)
    case "relative_density" => Ok(s.relativeDensity)
    case "specific_gravity" => Ok(s.specificGravity)
    case "unit_sat_weight" => Ok(s.unitSatWeight)
    case "saturation" => Ok(s.saturation)
    case "e_cr0" => Ok(Some(s.eCr0))
    case "p_cr0" => Ok(Some(s.pCr0))
    case "lamb_crl" => Ok(Some(s.lambCrl))
    case _ => if name in s.extra then Ok(Some(s.extra[name])) else Err(AttributeError(name))
  }

  /** `Soil.inputs`, the attributes a soil serialises. */
  const Inputs: seq<string> := [
    "g_mod", "phi", "relative_density", "unit_dry_weight", "unit_sat_weight", "cohesion",
    "poissons_ratio", "e_min", "e_max", "e_cr0", "p_cr0", "lamb_crl"]

  // ---------------------------------------------------------------------------
  // Derived read-only quantities
  // ---------------------------------------------------------------------------

  /** `unit_weight`: the saturated weight once a non-zero saturation is set, else the dry weight. */
  function UnitWeight(s: SoilState): (r: Option<real>)
    ensures s.saturation.Some? && s.saturation.value != 0.0 ==> r == s.unitSatWeight
    ensures s.saturation.None? || s.saturation.value == 0.0 ==> r == s.unitDryWeight
  {
    if s.saturation.Some? && s.saturation.value != 0.0 then s.unitSatWeight else s.unitDryWeight
  }

  /** `porosity`: the share of the total volume taken by voids. */
  function Porosity(s: SoilState): (r: Result<real>)
    ensures r.Ok? <==> s.eCurr.Some? && 1.0 + s.eCurr.value != 0.0
    ensures s.eCurr.None? ==> r == Err(TypeError)
    ensures s.eCurr.Some? && 1.0 + s.eCurr.value == 0.0 ==> r == Err(ZeroDivisionError)
    ensures r.Ok? ==> r.value * (1.0 + s.eCurr.value) == s.eCurr.value
    ensures r.Ok? && 0.0 <= s.eCurr.value ==> 0.0 <= r.value < 1.0
  {
    match s.eCurr
    case None => Err(TypeError)
    case Some(e) => if 1.0 + e == 0.0 then Err(ZeroDivisionError) else Ok(UnitVoidVolume(e))
  }

  /** `moisture_content`: the weight of the water in the voids over the dry weight. */
  function MoistureContent(s: SoilState): (r: Result<real>)
    ensures r.Ok? <==>
      s.eCurr.Some? && 1.0 + s.eCurr.value != 0.0 && s.saturation.Some? &&
      s.unitDryWeight.Some? && s.unitDryWeight.value != 0.0
    ensures r.Ok? ==>
      r.value * s.unitDryWeight.value == UnitMoistureWeight(s.saturation.value, s.eCurr.value)
  {
    if s.eCurr.None? then Err(TypeError)
    else if 1.0 + s.eCurr.value == 0.0 then Err(ZeroDivisionError)
    else if s.saturation.None? || s.unitDryWeight.None? then Err(TypeError)
    else if s.unitDryWeight.value == 0.0 then Err(ZeroDivisionError)
    else Ok(UnitMoistureWeight(s.saturation.value, s.eCurr.value) / s.unitDryWeight.value)
  }

  /** `n1_60`: the normalised penetration resistance implied by the relative density. */
  function N160(s: SoilState): (r: Result<real>)
    ensures r.Ok? <==> s.relativeDensity.Some?
    ensures r.Ok? ==> 0.0 <= r.value
    ensures r.Ok? ==> 9.0 * r.value == 400.0 * s.relativeDensity.value * s.relativeDensity.value
  {
    match s.relativeDensity
    case None => Err(TypeError)
    case Some(d) => var x := d * 100.0 / 15.0; Ok(x * x)
  }

  // ---------------------------------------------------------------------------
  // The object
  // ---------------------------------------------------------------------------

  class Soil {
    var phi: Option<real>
    var cohesion: Option<real>
    var unitDryWeight: Option<real>
    var eMin: Option<real>
    var eMax: Option<real>
    var eCurr: Option<real>
    var relativeDensity: Option<real>
    var specificGravity: Option<real>
    var unitSatWeight: Option<real>
    var saturation: Option<real>
    var eCr0: real
    var pCr0: real
    var lambCrl: real
    var extra: map<string, real>

    function State(): SoilState
      reads this
    {
      SoilState(phi, cohesion, unitDryWeight, eMin, eMax, eCurr, relativeDensity, specificGravity,
                unitSatWeight, saturation, eCr0, pCr0, lambCrl, extra)
    }

    constructor ()
      ensures State() == Fresh
    {
      phi, cohesion, unitDryWeight, eMin, eMax := None, None, None, None, None;
      eCurr, relativeDensity, specificGravity, unitSatWeight, saturation := None, None, None, None, None;
      eCr0, pCr0, lambCrl := 0.0, 0.0, 0.0;
      extra := map[];
    }

    method SetECurr(v: real) returns (r: Outcome)
      modifies this
      ensures Step(State(), r) == AssignECurr(old(State()), v)
    {
      if eMax.Some? && eMin.Some? && relativeDensity.Some? {
        var voidRatio := VoidRatioFromDensity(eMax.value, eMin.value, relativeDensity.value);
        if voidRatio != v {
          return Fail(ModelError(VoidRatioMessage));
        }
      } else {
        eCurr := Some(v);
      }
      return Pass;
    }

    method SetUnitDryWeight(v: real) returns (r: Outcome)
      modifies this
      ensures Step(State(), r) == AssignUnitDryWeight(old(State()), v)
    {
      unitDryWeight := Some(v);
      if eCurr.Some? {
        var gravity := GravityFrom(eCurr.value, v);
        if specificGravity.Some? {
          if specificGravity.value != gravity {
            return Fail(ModelError(DryWeightMessage));
          }
        } else {
          specificGravity := Some(gravity);
        }
      } else if specificGravity.Some? {
        if v == 0.0 {
          return Fail(ZeroDivisionError);
        }
        r := SetECurr(VoidRatioFrom(specificGravity.value, v));
        return;
      }
      return Pass;
    }

    method SetSpecificGravity(v: real) returns (r: Outcome)
      modifies this
      ensures Step(State(), r) == AssignSpecificGravity(old(State()), v)
    {
      specificGravity := Some(v);
      if eCurr.Some? {
        if 1.0 + eCurr.value == 0.0 {
          return Fail(ZeroDivisionError);
        }
        var dryWeight := DryWeightFrom(v, eCurr.value);
        if unitDryWeight.Some? {
          if unitDryWeight.value != dryWeight {
            return Fail(ModelError(GravityMessage));
          }
        } else {
          r := SetUnitDryWeight(dryWeight);
          return;
        }
      }
      return Pass;
    }

    method SetRelativeDensity(v: real) returns (r: Outcome)
      modifies this
      ensures Step(State(), r) == AssignRelativeDensity(old(State()), v)
    {
      if eMax.Some? && eCurr.Some? && eMin.Some? {
        if eMax.value - eMin.value == 0.0 {
          return Fail(ZeroDivisionError);
        }
        var density := DensityFromVoidRatio(eMax.value, eMin.value, eCurr.value);
        if density != v {
          return Fail(ModelError(DensityMessage));
        }
      }
      relativeDensity := Some(v);
      return Pass;
    }

    method SetSaturation(v: real)
      modifies this
      ensures State() == old(State()).(saturation := Some(v))
    {
      saturation := Some(v);
    }

    method SetUnitSatWeight(v: real) returns (r: Outcome)
      modifies this
      ensures Step(State(), r) == AssignUnitSatWeight(old(State()), v)
    {
      if eCurr.Some? && 1.0 + eCurr.value == 0.0 {
        return Fail(ZeroDivisionError);
      }
      if eCurr.Some? && saturation.Some? && unitDryWeight.Some? {
        var satWeight := UnitMoistureWeight(saturation.value, eCurr.value) + unitDryWeight.value;
        if satWeight != v {
          return Fail(ModelError(SatWeightMessage));
        }
        return Pass;
      }
      unitSatWeight := Some(v);
      if unitDryWeight.Some? {
        var moistureWeight := v - unitDryWeight.value;
        var moistureVolume := moistureWeight / PW;
        if eCurr.Some? {
          if UnitVoidVolume(eCurr.value) == 0.0 {
            return Fail(ZeroDivisionError);
          }
          SetSaturation(SaturationFrom(moistureVolume, eCurr.value));
        }
        if saturation.Some? {
          if saturation.value == 0.0 {
            return Fail(ZeroDivisionError);
          }
          var voidVolume := VoidVolumeFrom(moistureVolume, saturation.value);
          if specificGravity.Some? {
            r := SetUnitDryWeight(DryWeightFromVoids(voidVolume, specificGravity.value));
            return;
          } else if eCurr.Some? {
            r := SetUnitDryWeight(unitSatWeight.value - moistureWeight);
            return;
          }
        }
      }
      return Pass;
    }

    /** `setattr(self, name, v)`. */
    method SetAttribute(name: string, v: real) returns (r: Outcome)
      modifies this
      ensures Step(State(), r) == AssignAttribute(old(State()), name, v)
    {
      r := Pass;
      match name
      case "phi" => phi := Some(v);
      case "cohesion" => cohesion := Some(v);
      case "unit_dry_weight" => r := SetUnitDryWeight(v);
      case "e_min" => eMin := Some(v);
      case "e_max" => eMax := Some(v);
      case "e_curr" => r := SetECurr(v);
      case "relative_density" => r := SetRelativeDensity(v);
      case "specific_gravity" => r := SetSpecificGravity(v);
      case "unit_sat_weight" => r := SetUnitSatWeight(v);
      case "saturation" => SetSaturation(v);
      case "e_cr0" => eCr0 := v;
      case "p_cr0" => pCr0 := v;
      case "lamb_crl" => lambCrl := v;
      case _ =>
        if name in ReadOnly {
          r := Fail(AttributeError(name));
        } else {
          extra := extra[name := v];
        }
    }
  }
}
