/**
 * What the `Soil` setters guarantee, stated on the functions that model them.
 */
module SoilLaws {
  import opened Wrappers
  import opened Exceptions
  import opened Soils

  // ---------------------------------------------------------------------------
  // The relations invert one another
  // ---------------------------------------------------------------------------

  /** The void ratio derived from a gravity and a dry weight gives back that gravity. */
  lemma GravityFromVoidRatio(gravity: real, dryWeight: real)
    requires dryWeight != 0.0
    ensures GravityFrom(VoidRatioFrom(gravity, dryWeight), dryWeight) == gravity
  {
    calc {
      GravityFrom(VoidRatioFrom(gravity, dryWeight), dryWeight);
      (1.0 + (gravity * PW / dryWeight - 1.0)) * dryWeight / PW;
      (gravity * PW / dryWeight) * dryWeight / PW;
      { assert (gravity * PW / dryWeight) * dryWeight == gravity * PW; }
      gravity;
    }
  }

  /** The dry weight derived from a gravity and a void ratio gives back that gravity. */
  lemma GravityFromDryWeight(gravity: real, e: real)
    requires 1.0 + e != 0.0
    ensures GravityFrom(e, DryWeightFrom(gravity, e)) == gravity
  {
    assert (1.0 + e) * (gravity * PW / (1.0 + e)) == gravity * PW;
  }

  /** A dry weight agrees with a gravity exactly when the gravity agrees with it. */
  lemma DryWeightAgreesWithGravity(gravity: real, e: real, dryWeight: real)
    requires 1.0 + e != 0.0
    ensures dryWeight == DryWeightFrom(gravity, e) <==> gravity == GravityFrom(e, dryWeight)
  {
    GravityFromDryWeight(gravity, e);
    if gravity == GravityFrom(e, dryWeight) {
      var d := 1.0 + e;
      assert gravity * PW == d * dryWeight;
      calc {
        DryWeightFrom(gravity, e);
        gravity * PW / d;
        (d * dryWeight) / d;
        dryWeight;
      }
    }
  }

  /** Relative density and void ratio determine each other between distinct bounds. */
  lemma DensityVoidRatioInverse(eMax: real, eMin: real, e: real, density: real)
    requires eMax - eMin != 0.0
    ensures density == DensityFromVoidRatio(eMax, eMin, e) <==> e == VoidRatioFromDensity(eMax, eMin, density)
  {
    var d := eMax - eMin;
    if density == DensityFromVoidRatio(eMax, eMin, e) {
      assert density == (eMax - e) / d;
      assert density * d == ((eMax - e) / d) * d;
      assert ((eMax - e) / d) * d == eMax - e;
    }
    if e == VoidRatioFromDensity(eMax, eMin, density) {
      assert eMax - e == density * (eMax - eMin);
    }
  }

  /** The void ratio follows back from the porosity: e = n / (1 - n). */
  lemma PorosityGivesVoidRatio(s: SoilState)
    requires Porosity(s).Ok?
    ensures Porosity(s).value != 1.0
    ensures s.eCurr.value == Porosity(s).value / (1.0 - Porosity(s).value)
  {
    var e, n := s.eCurr.value, Porosity(s).value;
    assert n * (1.0 + e) == e;
    assert n - 1.0 == -1.0 / (1.0 + e);
  }

  /** Where the saturated weight agrees, the moisture content is its excess over the dry weight. */
  lemma MoistureContentFromWeights(s: SoilState)
    requires MoistureContent(s).Ok? && s.unitSatWeight.Some? && SatWeightAgrees(s)
    ensures MoistureContent(s).value == (s.unitSatWeight.value - s.unitDryWeight.value) / s.unitDryWeight.value
  {
  }

  /** n1_60 grows with a non-negative relative density. */
  lemma N160Monotone(s: SoilState, t: SoilState)
    requires s.relativeDensity.Some? && t.relativeDensity.Some?
    requires 0.0 <= s.relativeDensity.value <= t.relativeDensity.value
    ensures N160(s).value <= N160(t).value
  {
    var a, b := s.relativeDensity.value, t.relativeDensity.value;
    assert a * a <= b * b by {
      assert a * a <= a * b <= b * b;
    }
  }

  // ---------------------------------------------------------------------------
  // Each setter
  // ---------------------------------------------------------------------------

  /**
   * `e_curr = v` raises exactly when e_max, e_min and the relative density are
   * set and give another void ratio; it stores `v` only when one of them is unset.
   */
  lemma VoidRatioSetter(s: SoilState, v: real)
    ensures var r := AssignECurr(s, v);
      if s.eMax.Some? && s.eMin.Some? && s.relativeDensity.Some? then
        r.state == s &&
        (r.outcome == Pass <==> v == VoidRatioFromDensity(s.eMax.value, s.eMin.value, s.relativeDensity.value)) &&
        (r.outcome.Fail? ==> r.outcome.error == ModelError(VoidRatioMessage))
      else
        r == Step(s.(eCurr := Some(v)), Pass)
    ensures VoidRatioAgrees(s) ==> VoidRatioAgrees(AssignECurr(s, v).state)
  {
  }

  /** `relative_density = v` is checked against e_curr when the bounds and e_curr are set. */
  lemma DensitySetter(s: SoilState, v: real)
    ensures var r := AssignRelativeDensity(s, v);
      if s.eMax.Some? && s.eCurr.Some? && s.eMin.Some? then
        if s.eMax.value == s.eMin.value then r == Step(s, Fail(ZeroDivisionError))
        else if v == DensityFromVoidRatio(s.eMax.value, s.eMin.value, s.eCurr.value) then
          r == Step(s.(relativeDensity := Some(v)), Pass)
        else r == Step(s, Fail(ModelError(DensityMessage)))
      else
        r == Step(s.(relativeDensity := Some(v)), Pass)
  {
  }

  /** A relative density that is accepted leaves the void ratio relation holding. */
  lemma DensitySetterAgrees(s: SoilState, v: real)
    requires AssignRelativeDensity(s, v).outcome == Pass
    ensures VoidRatioAgrees(AssignRelativeDensity(s, v).state)
  {
    if s.eMax.Some? && s.eCurr.Some? && s.eMin.Some? {
      DensityVoidRatioInverse(s.eMax.value, s.eMin.value, s.eCurr.value, v);
    }
  }

  /**
   * `unit_dry_weight = v` always keeps `v`, even when it then raises; with a
   * void ratio it derives or checks the specific gravity, without one it
   * derives the void ratio from a known specific gravity.
   */
  lemma DryWeightSetter(s: SoilState, v: real)
    ensures AssignUnitDryWeight(s, v).state.unitDryWeight == Some(v)
    ensures var r := AssignUnitDryWeight(s, v);
      s.eCurr.Some? && s.specificGravity.None? ==>
        r == Step(s.(unitDryWeight := Some(v), specificGravity := Some(GravityFrom(s.eCurr.value, v))), Pass)
    ensures var r := AssignUnitDryWeight(s, v);
      s.eCurr.Some? && s.specificGravity.Some? ==>
        r.state == s.(unitDryWeight := Some(v)) &&
        (r.outcome == Pass <==> s.specificGravity.value == GravityFrom(s.eCurr.value, v)) &&
        (r.outcome.Fail? ==> r.outcome.error == ModelError(DryWeightMessage))
    ensures var r := AssignUnitDryWeight(s, v);
      s.eCurr.None? && s.specificGravity.Some? && v == 0.0 ==>
        r == Step(s.(unitDryWeight := Some(v)), Fail(ZeroDivisionError))
    ensures var r := AssignUnitDryWeight(s, v);
      s.eCurr.None? && s.specificGravity.Some? && v != 0.0 &&
      !(s.eMax.Some? && s.eMin.Some? && s.relativeDensity.Some?) ==>
        r == Step(s.(unitDryWeight := Some(v), eCurr := Some(VoidRatioFrom(s.specificGravity.value, v))), Pass)
    ensures var r := AssignUnitDryWeight(s, v);
      s.eCurr.None? && s.specificGravity.Some? && v != 0.0 &&
      s.eMax.Some? && s.eMin.Some? && s.relativeDensity.Some? ==>
        r.state == s.(unitDryWeight := Some(v)) &&
        (r.outcome == Pass <==>
           VoidRatioFrom(s.specificGravity.value, v) ==
           VoidRatioFromDensity(s.eMax.value, s.eMin.value, s.relativeDensity.value)) &&
        (r.outcome.Fail? ==> r.outcome.error == ModelError(VoidRatioMessage))
    ensures s.eCurr.None? && s.specificGravity.None? ==>
      AssignUnitDryWeight(s, v) == Step(s.(unitDryWeight := Some(v)), Pass)
  {
  }

  /** An accepted dry weight leaves gravity, dry weight and void ratio agreeing. */
  lemma DryWeightSetterAgrees(s: SoilState, v: real)
    requires AssignUnitDryWeight(s, v).outcome == Pass
    ensures GravityAgrees(AssignUnitDryWeight(s, v).state)
    ensures VoidRatioAgrees(s) ==> VoidRatioAgrees(AssignUnitDryWeight(s, v).state)
  {
    if s.eCurr.None? && s.specificGravity.Some? {
      GravityFromVoidRatio(s.specificGravity.value, v);
    }
  }

  /**
   * `specific_gravity = v` always keeps `v`; with a void ratio it checks the
   * dry weight, or derives it through the dry-weight setter, which then never raises.
   */
  lemma GravitySetter(s: SoilState, v: real)
    ensures AssignSpecificGravity(s, v).state.specificGravity == Some(v)
    ensures s.eCurr.None? ==> AssignSpecificGravity(s, v) == Step(s.(specificGravity := Some(v)), Pass)
    ensures s.eCurr.Some? && 1.0 + s.eCurr.value == 0.0 ==>
      AssignSpecificGravity(s, v) == Step(s.(specificGravity := Some(v)), Fail(ZeroDivisionError))
    ensures var r := AssignSpecificGravity(s, v);
      s.eCurr.Some? && 1.0 + s.eCurr.value != 0.0 && s.unitDryWeight.None? ==>
        r == Step(s.(specificGravity := Some(v), unitDryWeight := Some(DryWeightFrom(v, s.eCurr.value))), Pass)
    ensures var r := AssignSpecificGravity(s, v);
      s.eCurr.Some? && 1.0 + s.eCurr.value != 0.0 && s.unitDryWeight.Some? ==>
        r.state == s.(specificGravity := Some(v)) &&
        (r.outcome == Pass <==> s.unitDryWeight.value == DryWeightFrom(v, s.eCurr.value)) &&
        (r.outcome.Fail? ==> r.outcome.error == ModelError(GravityMessage))
  {
    if s.eCurr.Some? && 1.0 + s.eCurr.value != 0.0 && s.unitDryWeight.None? {
      GravityFromDryWeight(v, s.eCurr.value);
    }
  }

  /** An accepted specific gravity leaves gravity, dry weight and void ratio agreeing. */
  lemma GravitySetterAgrees(s: SoilState, v: real)
    requires AssignSpecificGravity(s, v).outcome == Pass
    ensures GravityAgrees(AssignSpecificGravity(s, v).state)
  {
    if s.eCurr.Some? && 1.0 + s.eCurr.value != 0.0 {
      GravityFromDryWeight(v, s.eCurr.value);
      if s.unitDryWeight.Some? {
        DryWeightAgreesWithGravity(v, s.eCurr.value, s.unitDryWeight.value);
      }
    }
  }

  /**
   * `unit_sat_weight = v` with saturation, void ratio and dry weight all set
   * only checks `v` and stores nothing; otherwise it stores `v`, and stores
   * nothing else while the dry weight is unset.
   */
  lemma SatWeightSetter(s: SoilState, v: real)
    ensures var r := AssignUnitSatWeight(s, v);
      s.eCurr.Some? && 1.0 + s.eCurr.value != 0.0 && s.saturation.Some? && s.unitDryWeight.Some? ==>
        r.state == s &&
        (r.outcome == Pass <==> v == UnitMoistureWeight(s.saturation.value, s.eCurr.value) + s.unitDryWeight.value) &&
        (r.outcome.Fail? ==> r.outcome.error == ModelError(SatWeightMessage))
    ensures var r := AssignUnitSatWeight(s, v);
      (s.eCurr.None? || 1.0 + s.eCurr.value != 0.0) &&
      !(s.eCurr.Some? && s.saturation.Some? && s.unitDryWeight.Some?) ==>
        r.state.unitSatWeight == Some(v)
    ensures s.unitDryWeight.None? && (s.eCurr.None? || 1.0 + s.eCurr.value != 0.0) ==>
      AssignUnitSatWeight(s, v) == Step(s.(unitSatWeight := Some(v)), Pass)
  {
  }

  /** The saturation that `moistureVolume` of water gives carries exactly that water. */
  lemma MoistureOfDerivedSaturation(moistureVolume: real, e: real)
    requires 1.0 + e != 0.0 && e != 0.0
    ensures UnitMoistureWeight(SaturationFrom(moistureVolume, e), e) == moistureVolume * PW
    ensures moistureVolume != 0.0 ==> VoidVolumeFrom(moistureVolume, SaturationFrom(moistureVolume, e)) == UnitVoidVolume(e)
  {
    var vv := UnitVoidVolume(e);
    assert vv != 0.0;
    assert (moistureVolume / vv) * vv == moistureVolume;
    if moistureVolume != 0.0 {
      assert moistureVolume / (moistureVolume / vv) == vv;
    }
  }

  /** Solids leaving the void volume of void ratio `e` weigh what the gravity gives at `e`. */
  lemma DryWeightOfVoids(e: real, gravity: real)
    requires 1.0 + e != 0.0
    ensures DryWeightFromVoids(UnitVoidVolume(e), gravity) == DryWeightFrom(gravity, e)
  {
    assert 1.0 - e / (1.0 + e) == 1.0 / (1.0 + e);
  }

  /**
   * With the dry weight and a non-zero void ratio known and the saturation
   * unset, a saturated weight different from the dry weight derives the
   * saturation ((v - udw)/pw)/(e/(1+e)); when the gravity agreed beforehand
   * the dry weight is kept, and afterwards every relation holds.
   */
  lemma SatWeightDerivesSaturation(s: SoilState, v: real)
    requires s.unitDryWeight.Some? && s.eCurr.Some? && s.saturation.None?
    requires 1.0 + s.eCurr.value != 0.0 && s.eCurr.value != 0.0
    requires v != s.unitDryWeight.value
    requires GravityAgrees(s)
    ensures var r := AssignUnitSatWeight(s, v);
      var e, w := s.eCurr.value, s.unitDryWeight.value;
      r.outcome == Pass &&
      r.state == s.(unitSatWeight := Some(v),
                    saturation := Some(SaturationFrom((v - w) / PW, e)),
                    specificGravity := Some(GravityFrom(e, w)))
    ensures SatWeightAgrees(AssignUnitSatWeight(s, v).state)
    ensures GravityAgrees(AssignUnitSatWeight(s, v).state)
  {
    var e, w := s.eCurr.value, s.unitDryWeight.value;
    var mv := (v - w) / PW;
    assert mv != 0.0;
    MoistureOfDerivedSaturation(mv, e);
    var sat := SaturationFrom(mv, e);
    assert sat != 0.0 by {
      assert UnitMoistureWeight(sat, e) != 0.0;
    }
    if s.specificGravity.Some? {
      var g := s.specificGravity.value;
      DryWeightOfVoids(e, g);
      DryWeightAgreesWithGravity(g, e, w);
      assert DryWeightFromVoids(VoidVolumeFrom(mv, sat), g) == w;
    }
  }

  /**
   * With the dry weight and a non-zero void ratio known and the saturation
   * unset, a saturated weight is always stored and always derives the
   * saturation ((v - udw)/pw)/(e/(1+e)), whatever the gravity.  Then the
   * cascade either divides by a zero saturation (v equal to the dry weight),
   * or derives the gravity from the dry weight when it is unset, or else
   * replaces the dry weight by the one the gravity gives at e_curr.
   */
  lemma SatWeightCascade(s: SoilState, v: real)
    requires s.unitDryWeight.Some? && s.eCurr.Some? && s.saturation.None?
    requires 1.0 + s.eCurr.value != 0.0 && s.eCurr.value != 0.0
    ensures var r := AssignUnitSatWeight(s, v);
      var e, w := s.eCurr.value, s.unitDryWeight.value;
      r.state.unitSatWeight == Some(v) && r.state.saturation == Some(SaturationFrom((v - w) / PW, e))
    ensures v == s.unitDryWeight.value ==> AssignUnitSatWeight(s, v).outcome == Fail(ZeroDivisionError)
    ensures var r := AssignUnitSatWeight(s, v);
      var e, w := s.eCurr.value, s.unitDryWeight.value;
      v != w && s.specificGravity.None? ==>
        r.outcome == Pass &&
        r.state == s.(unitSatWeight := Some(v), saturation := Some(SaturationFrom((v - w) / PW, e)),
                      specificGravity := Some(GravityFrom(e, w)))
    ensures var r := AssignUnitSatWeight(s, v);
      var e, w := s.eCurr.value, s.unitDryWeight.value;
      v != w && s.specificGravity.Some? ==>
        r.outcome == Pass &&
        r.state == s.(unitSatWeight := Some(v), saturation := Some(SaturationFrom((v - w) / PW, e)),
                      unitDryWeight := Some(DryWeightFrom(s.specificGravity.value, e)))
  {
    var e, w := s.eCurr.value, s.unitDryWeight.value;
    var mv := (v - w) / PW;
    var sat := SaturationFrom(mv, e);
    if v == w {
      assert mv == 0.0;
      assert sat == 0.0;
    } else {
      assert mv != 0.0;
      MoistureOfDerivedSaturation(mv, e);
      assert sat != 0.0 by {
        assert UnitMoistureWeight(sat, e) != 0.0;
      }
      assert VoidVolumeFrom(mv, sat) == UnitVoidVolume(e);
      if s.specificGravity.Some? {
        var g := s.specificGravity.value;
        DryWeightOfVoids(e, g);
        GravityFromDryWeight(g, e);
        assert DryWeightFromVoids(VoidVolumeFrom(mv, sat), g) == DryWeightFrom(g, e);
      } else {
        assert v - (v - w) == w;
      }
    }
  }

  /** A saturated weight equal to the dry weight derives a zero saturation and then divides by it. */
  lemma SatWeightOfDrySoilRaises(s: SoilState)
    requires s.unitDryWeight.Some? && s.eCurr.Some? && s.saturation.None?
    requires 1.0 + s.eCurr.value != 0.0 && s.eCurr.value != 0.0
    ensures var r := AssignUnitSatWeight(s, s.unitDryWeight.value);
      r == Step(s.(unitSatWeight := s.unitDryWeight, saturation := Some(0.0)), Fail(ZeroDivisionError))
  {
  }

  /**
   * With a void ratio of 0 and no saturation, the saturated weight is stored
   * and deriving the saturation divides by a zero void volume.
   */
  lemma SatWeightOfVoidlessSoilRaises(s: SoilState, v: real)
    requires s.unitDryWeight.Some? && s.eCurr == Some(0.0) && s.saturation.None?
    ensures AssignUnitSatWeight(s, v) == Step(s.(unitSatWeight := Some(v)), Fail(ZeroDivisionError))
  {
  }

  // ---------------------------------------------------------------------------
  // Behaviour of the cluster as written
  // ---------------------------------------------------------------------------

  /**
   * `e_curr` is never checked against the specific gravity and dry weight: a
   * soil whose three agree accepts another void ratio and no longer agrees.
   */
  lemma VoidRatioSkipsGravityCheck()
    ensures var s := Fresh.(unitDryWeight := Some(1800.0), specificGravity := Some(2.7), eCurr := Some(0.5));
      GravityAgrees(s) &&
      AssignECurr(s, 0.6).outcome == Pass && !GravityAgrees(AssignECurr(s, 0.6).state)
  {
  }

  /**
   * When the void ratio is unknown, the saturated-weight cascade recomputes
   * the dry weight from a moisture weight taken against the old dry weight,
   * so an accepted assignment can leave the soil disagreeing with itself:
   * assigning the same saturated weight again raises.
   */
  lemma SatWeightCascadeDisagrees()
    ensures var s := Fresh.(unitDryWeight := Some(1000.0), specificGravity := Some(2.0), saturation := Some(0.5));
      var r := AssignUnitSatWeight(s, 1100.0);
      r.outcome == Pass &&
      r.state.unitDryWeight == Some(1600.0) && r.state.eCurr == Some(0.25) &&
      !SatWeightAgrees(r.state) &&
      AssignUnitSatWeight(r.state, 1100.0).outcome == Fail(ModelError(SatWeightMessage))
  {
    var s := Fresh.(unitDryWeight := Some(1000.0), specificGravity := Some(2.0), saturation := Some(0.5));
    assert VoidVolumeFrom((1100.0 - 1000.0) / PW, 0.5) == 0.2;
    assert DryWeightFromVoids(0.2, 2.0) == 1600.0;
    assert VoidRatioFrom(2.0, 1600.0) == 0.25;
    assert UnitMoistureWeight(0.5, 0.25) == 100.0;
  }
}
