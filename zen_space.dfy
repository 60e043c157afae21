/**
 * The per-frame engine of the WebGL zen space: the `time` record, the
 * arrays of zen elements and the list of live ripples, with the frame
 * steps `animate` runs in order (clock, zen elements, ripples).
 */
module ZenSpace {
  import opened Numbers
  import opened ZenElements
  import opened Ripples

  /** The `time` record: the last clock reading, the one before it, their difference and the running total. */
  class Clock {
    var current: real
    var previous: real
    var delta: real
    var elapsed: real
    /** Every delta the clock has produced, oldest first. */
    ghost var deltas: seq<real>

    /** The elapsed time is the last reading and the sum of every delta. */
    ghost predicate Valid()
      reads this
    {
      elapsed == previous == current && elapsed == Sum(deltas)
    }

    /** The record as declared: all zeros. */
    constructor ()
      ensures Valid()
      ensures current == 0.0 && previous == 0.0 && delta == 0.0 && elapsed == 0.0
      ensures deltas == []
    {
      current, previous, delta, elapsed := 0.0, 0.0, 0.0, 0.0;
      deltas := [];
    }

    /** The clock lines of `animate`, given the reading of `clock.getElapsedTime()`. */
    method Tick(reading: real)
      requires Valid()
      modifies this
      ensures Valid()
      ensures delta == reading - old(previous)
      ensures current == reading && previous == reading && elapsed == reading
      ensures deltas == old(deltas) + [delta]
    {
      current := reading;
      delta := current - previous;
      previous := current;
      elapsed := elapsed + delta;
      SumSnoc(deltas, delta);
      deltas := deltas + [delta];
    }
  }

  class ZenScene {
    const time: Clock

    // `zenElements`.
    const mandalas: array<Mandala>
    const energyCenters: array<EnergyCenter>
    const sacredGeometry: array<SacredShape>
    /** The elements as they were created. */
    ghost const initialMandalas: seq<Mandala>
    ghost const initialCenters: seq<EnergyCenter>
    ghost const initialSacred: seq<SacredShape>
    /** The delta of every `updateZenElements` pass so far, oldest first. */
    ghost var frameDeltas: seq<real>

    // `interaction.ripples`.
    var ripples: seq<Ripple>

    /**
     * The scene invariant: the clock is valid; each rotating element has
     * turned by its speed times the sum of the frame deltas and keeps its
     * creation parameters; each energy center floats within its amplitude
     * around its origin with its light on it; and every ripple lasts three
     * seconds.
     */
    ghost predicate Valid()
      reads this, time, mandalas, energyCenters, sacredGeometry
    {
      && time.Valid()
      && MandalasValid(Sum(frameDeltas))
      && CentersValid()
      && SacredValid(Sum(frameDeltas))
      && RipplesValid()
    }

    /** Every ripple of the list lasts three seconds. */
    ghost predicate RipplesValid()
      reads this`ripples
    {
      forall r :: r in ripples ==> r.duration == RippleDuration
    }

    ghost predicate MandalasValid(total: real)
      reads mandalas
    {
      && |initialMandalas| == mandalas.Length
      && forall i :: 0 <= i < mandalas.Length ==> MandalaAfter(mandalas[i], initialMandalas[i], total)
    }

    ghost predicate CentersValid()
      reads energyCenters
    {
      && |initialCenters| == energyCenters.Length
      && forall i :: 0 <= i < energyCenters.Length ==>
           CenterSettled(energyCenters[i]) && CenterAfter(energyCenters[i], initialCenters[i])
    }

    ghost predicate SacredValid(total: real)
      reads sacredGeometry
    {
      && |initialSacred| == sacredGeometry.Length
      && forall i :: 0 <= i < sacredGeometry.Length ==> SacredAfter(sacredGeometry[i], initialSacred[i], total)
    }

    /** The zen elements `createZenElements` builds, the clock at zero and no ripples. */
    constructor (mandalaDraws: seq<MandalaDraws>, centerDraws: seq<CenterDraws>)
      requires |mandalaDraws| == |MandalaPositions|
      requires |centerDraws| == |EnergyCenterPositions|
      ensures Valid()
      ensures fresh(time) && time.elapsed == 0.0 && time.previous == 0.0 && time.delta == 0.0
      ensures fresh(mandalas) && fresh(energyCenters) && fresh(sacredGeometry)
      ensures mandalas[..] == seq(|MandalaPositions|, i requires 0 <= i < |MandalaPositions| =>
                                    NewMandala(i, MandalaPositions[i], mandalaDraws[i]))
      ensures energyCenters[..] == seq(|EnergyCenterPositions|, i requires 0 <= i < |EnergyCenterPositions| =>
                                         NewEnergyCenter(i, EnergyCenterPositions[i], centerDraws[i]))
      ensures sacredGeometry[..] == [FlowerOfLifeShape(), MetatronCubeShape()]
      ensures ripples == []
      ensures frameDeltas == [] && time.deltas == []
      ensures initialMandalas == mandalas[..] && initialCenters == energyCenters[..] && initialSacred == sacredGeometry[..]
    {
      var ms := seq(|MandalaPositions|, i requires 0 <= i < |MandalaPositions| =>
                      NewMandala(i, MandalaPositions[i], mandalaDraws[i]));
      var cs := seq(|EnergyCenterPositions|, i requires 0 <= i < |EnergyCenterPositions| =>
                      NewEnergyCenter(i, EnergyCenterPositions[i], centerDraws[i]));
      var gs := [FlowerOfLifeShape(), MetatronCubeShape()];
      time := new Clock();
      frameDeltas := [];
      mandalas := new Mandala[|ms|](i requires 0 <= i < |ms| => ms[i]);
      energyCenters := new EnergyCenter[|cs|](i requires 0 <= i < |cs| => cs[i]);
      sacredGeometry := new SacredShape[|gs|](i requires 0 <= i < |gs| => gs[i]);
      initialMandalas, initialCenters, initialSacred := ms, cs, gs;
      ripples := [];
      new;
      assert mandalas[..] == ms && energyCenters[..] == cs && sacredGeometry[..] == gs;
      forall i | 0 <= i < |cs|
        ensures CenterSettled(cs[i])
      {
        NewEnergyCenterSettled(i, EnergyCenterPositions[i], centerDraws[i]);
      }
    }

    /** `createRipple`, once the click has been resolved to a point of the z = 0 plane. */
    method CreateRipple(point: Vec3) returns (r: Ripple)
      requires Valid()
      modifies this`ripples
      ensures Valid()
      ensures r.position == point && r.creationTime == time.elapsed && r.duration == RippleDuration
      ensures r.look == InitialLook
      ensures ripples == old(ripples) + [r]
    {
      r := NewRipple(point, time.elapsed);
      ripples := ripples + [r];
    }

    /**
     * `updateRipples`: walks the list from the back, recomputing the ring of
     * each live ripple in place and splicing out each expired one.
     */
    method UpdateRipples()
      requires RipplesValid()
      modifies this`ripples
      ensures RipplesValid()
      ensures Durable(old(ripples)) && ripples == Sweep(old(ripples), time.elapsed)
    {
      ghost var rs := ripples;
      assert Durable(rs);
      var elapsed := time.elapsed;
      var i := |ripples| - 1;
      while i >= 0
        invariant -1 <= i < |rs|
        invariant ripples == rs[..i + 1] + Sweep(rs[i + 1..], elapsed)
      {
        SweepSplice(rs, ripples, i, elapsed);
        var ripple := ripples[i];
        var age := elapsed - ripple.creationTime;
        if age < ripple.duration {
          ripples := ripples[i := Refresh(ripple, elapsed)];
        } else {
          ripples := ripples[..i] + ripples[i + 1..];
        }
        i := i - 1;
      }
      assert rs[0..] == rs;
      SweepMembers(rs, elapsed);
    }

    /** `updateZenElements`: one frame of rotation, float and light pulse for every element. */
    method UpdateZenElements(sin: real -> real)
      requires Valid() && IsSine(sin)
      modifies mandalas, energyCenters, sacredGeometry, this`frameDeltas
      ensures Valid()
      ensures frameDeltas == old(frameDeltas) + [time.delta]
      ensures forall i :: 0 <= i < mandalas.Length ==>
                mandalas[i] == MandalaStep(old(mandalas[i]), time.elapsed, time.delta, sin)
      ensures forall i :: 0 <= i < energyCenters.Length ==>
                energyCenters[i] == CenterStep(old(energyCenters[i]), time.elapsed, sin)
      ensures forall i :: 0 <= i < sacredGeometry.Length ==>
                sacredGeometry[i] == SacredStep(old(sacredGeometry[i]), time.elapsed, time.delta, sin)
    {
      ghost var total := Sum(frameDeltas);
      SumSnoc(frameDeltas, time.delta);
      frameDeltas := frameDeltas + [time.delta];
      UpdateMandalas(sin, total);
      UpdateEnergyCenters(sin);
      UpdateSacredGeometry(sin, total);
    }

    /** The mandala loop of `updateZenElements`. */
    method UpdateMandalas(sin: real -> real, ghost total: real)
      requires IsSine(sin) && MandalasValid(total)
      modifies mandalas
      ensures MandalasValid(total + time.delta)
      ensures forall i :: 0 <= i < mandalas.Length ==>
                mandalas[i] == MandalaStep(old(mandalas[i]), time.elapsed, time.delta, sin)
    {
      var elapsed := time.elapsed;
      var delta := time.delta;
      for i := 0 to mandalas.Length
        invariant forall k :: 0 <= k < i ==> mandalas[k] == MandalaStep(old(mandalas[k]), elapsed, delta, sin)
        invariant forall k :: i <= k < mandalas.Length ==> mandalas[k] == old(mandalas[k])
        invariant forall k :: 0 <= k < i ==> MandalaAfter(mandalas[k], initialMandalas[k], total + delta)
      {
        MandalaStepAdvances(mandalas[i], initialMandalas[i], total, elapsed, delta, sin);
        mandalas[i] := MandalaStep(mandalas[i], elapsed, delta, sin);
      }
    }

    /** The energy-center loop of `updateZenElements`. */
    method UpdateEnergyCenters(sin: real -> real)
      requires IsSine(sin) && CentersValid()
      modifies energyCenters
      ensures CentersValid()
      ensures forall i :: 0 <= i < energyCenters.Length ==>
                energyCenters[i] == CenterStep(old(energyCenters[i]), time.elapsed, sin)
    {
      var elapsed := time.elapsed;
      for i := 0 to energyCenters.Length
        invariant forall k :: 0 <= k < i ==> energyCenters[k] == CenterStep(old(energyCenters[k]), elapsed, sin)
        invariant forall k :: i <= k < energyCenters.Length ==> energyCenters[k] == old(energyCenters[k])
        invariant forall k :: 0 <= k < i ==>
                    CenterSettled(energyCenters[k]) && CenterAfter(energyCenters[k], initialCenters[k])
      {
        CenterStepSettles(energyCenters[i], elapsed, sin);
        energyCenters[i] := CenterStep(energyCenters[i], elapsed, sin);
      }
    }

    /** The sacred-geometry loop of `updateZenElements`. */
    method UpdateSacredGeometry(sin: real -> real, ghost total: real)
      requires IsSine(sin) && SacredValid(total)
      modifies sacredGeometry
      ensures SacredValid(total + time.delta)
      ensures forall i :: 0 <= i < sacredGeometry.Length ==>
                sacredGeometry[i] == SacredStep(old(sacredGeometry[i]), time.elapsed, time.delta, sin)
    {
      var elapsed := time.elapsed;
      var delta := time.delta;
      for i := 0 to sacredGeometry.Length
        invariant forall k :: 0 <= k < i ==> sacredGeometry[k] == SacredStep(old(sacredGeometry[k]), elapsed, delta, sin)
        invariant forall k :: i <= k < sacredGeometry.Length ==> sacredGeometry[k] == old(sacredGeometry[k])
        invariant forall k :: 0 <= k < i ==> SacredAfter(sacredGeometry[k], initialSacred[k], total + delta)
      {
        SacredStepAdvances(sacredGeometry[i], initialSacred[i], total, elapsed, delta, sin);
        sacredGeometry[i] := SacredStep(sacredGeometry[i], elapsed, delta, sin);
      }
    }

    /**
     * The model-relevant part of `animate`: tick the clock with the new
     * reading, advance the zen elements, then sweep the ripples.
     */
    method Animate(reading: real, sin: real -> real)
      requires Valid() && IsSine(sin)
      modifies this`ripples, this`frameDeltas, time, mandalas, energyCenters, sacredGeometry
      ensures Valid()
      ensures time.elapsed == reading && time.delta == reading - old(time.previous)
      ensures time.deltas == old(time.deltas) + [time.delta] && frameDeltas == old(frameDeltas) + [time.delta]
      ensures forall i :: 0 <= i < mandalas.Length ==>
                mandalas[i] == MandalaStep(old(mandalas[i]), reading, time.delta, sin)
      ensures forall i :: 0 <= i < energyCenters.Length ==>
                energyCenters[i] == CenterStep(old(energyCenters[i]), reading, sin)
      ensures forall i :: 0 <= i < sacredGeometry.Length ==>
                sacredGeometry[i] == SacredStep(old(sacredGeometry[i]), reading, time.delta, sin)
      ensures Durable(old(ripples)) && ripples == Sweep(old(ripples), reading)
    {
      time.Tick(reading);
      UpdateZenElements(sin);
      UpdateRipples();
    }
  }

  /**
   * Rotation is additive: turning by the deltas of one run of frames and
   * then another is turning by the deltas of the whole run, however the
   * frames are chunked.
   */
  lemma RotationChunking(rotation: real, speed: real, a: seq<real>, b: seq<real>)
    ensures (rotation + speed * Sum(a)) + speed * Sum(b) == rotation + speed * Sum(a + b)
  {
    SumConcat(a, b);
    assert speed * (Sum(a) + Sum(b)) == speed * Sum(a) + speed * Sum(b);
  }
}
