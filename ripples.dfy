/**
 * Click ripples: the only scene element with a finite life. A ripple is
 * created with the clock's elapsed time and a fixed duration; each frame
 * `updateRipples` recomputes the ring of every live ripple from its age and
 * removes the expired ones. `Sweep` is the specification of one such pass.
 */
module Ripples {
  import opened Numbers
  import opened ZenElements

  /** Every ripple lasts three seconds. */
  const RippleDuration: real := 3.0

  /** The ring shader uniforms and the mesh scale (x and y; z stays 1). */
  datatype Look = Look(radius: real, width: real, alpha: real, scale: real)

  datatype Ripple = Ripple(position: Vec3, creationTime: real, duration: real, look: Look)

  /** Uniforms and scale a ripple is created with. */
  const InitialLook: Look := Look(0.1, 0.05, 1.0, 1.0)

  /** The ripple record `createRipple` pushes for a click resolved to `point`. */
  function NewRipple(point: Vec3, elapsed: real): Ripple
  {
    Ripple(point, elapsed, RippleDuration, InitialLook)
  }

  function Age(r: Ripple, elapsed: real): real
  {
    elapsed - r.creationTime
  }

  /** The test `updateRipples` keeps a ripple by. */
  predicate Live(r: Ripple, elapsed: real)
  {
    Age(r, elapsed) < r.duration
  }

  /**
   * The ring at a given age: with progress `p = age / duration`, radius
   * `0.1 + 10p`, width `0.05 + 0.5p`, alpha `1 - p` and scale `1 + 5p`. For
   * an age within the ripple's life every value lies in its
   * range, and it starts from the look the ripple was created with.
   */
  function LookAt(age: real, duration: real): (l: Look)
    requires 0.0 < duration
    ensures age == 0.0 ==> l == InitialLook
    ensures 0.0 <= age < duration ==>
      && 0.1 <= l.radius < 10.1 && 0.05 <= l.width < 0.55
      && 0.0 < l.alpha <= 1.0 && 1.0 <= l.scale < 6.0
  {
    var p := age / duration;
    assert 0.0 <= age < duration ==> 0.0 <= p < 1.0 by {
      if 0.0 <= age < duration {
        DivFraction(age, duration);
      }
    }
    Look(0.1 + p * 10.0, 0.05 + p * 0.5, 1.0 - p, 1.0 + p * 5.0)
  }

  /** Radius, width and scale grow and alpha fades as the ripple ages. */
  lemma LookMonotone(age1: real, age2: real, duration: real)
    requires 0.0 < duration && age1 <= age2
    ensures LookAt(age1, duration).radius <= LookAt(age2, duration).radius
    ensures LookAt(age1, duration).width <= LookAt(age2, duration).width
    ensures LookAt(age1, duration).scale <= LookAt(age2, duration).scale
    ensures LookAt(age2, duration).alpha <= LookAt(age1, duration).alpha
  {
    DivMonotone(age1, age2, duration);
  }

  /** Every ripple of a list has a positive duration. */
  ghost predicate Durable(rs: seq<Ripple>)
  {
    forall r :: r in rs ==> 0.0 < r.duration
  }

  /** A live ripple with its ring recomputed for the current time. */
  function Refresh(r: Ripple, elapsed: real): Ripple
    requires 0.0 < r.duration
  {
    r.(look := LookAt(Age(r, elapsed), r.duration))
  }

  /** What one ripple contributes to the list after a pass: itself re-animated, or nothing. */
  function Keep(r: Ripple, elapsed: real): seq<Ripple>
    requires 0.0 < r.duration
  {
    if Live(r, elapsed) then [Refresh(r, elapsed)] else []
  }

  /** One pass of `updateRipples`: survivors in their original order, re-animated. */
  function Sweep(rs: seq<Ripple>, elapsed: real): seq<Ripple>
    requires Durable(rs)
  {
    if rs == [] then [] else Keep(rs[0], elapsed) + Sweep(rs[1..], elapsed)
  }

  /** Peeling one ripple off the front of a suffix, as the backward loop does. */
  lemma SweepUnfold(rs: seq<Ripple>, i: nat, elapsed: real)
    requires Durable(rs) && i < |rs|
    ensures Sweep(rs[i..], elapsed) == Keep(rs[i], elapsed) + Sweep(rs[i + 1..], elapsed)
  {
    assert rs[i..][1..] == rs[i + 1..];
  }

  /**
   * One step of the backward in-place pass: with the suffix after `i`
   * already swept, refreshing the ripple at `i` in place when it is live,
   * or splicing it out when it is not, leaves the list swept from `i` on.
   */
  lemma SweepSplice(rs: seq<Ripple>, current: seq<Ripple>, i: nat, elapsed: real)
    requires Durable(rs) && i < |rs|
    requires current == rs[..i + 1] + Sweep(rs[i + 1..], elapsed)
    ensures current[i] == rs[i]
    ensures Live(rs[i], elapsed) ==> current[i := Refresh(current[i], elapsed)] == rs[..i] + Sweep(rs[i..], elapsed)
    ensures !Live(rs[i], elapsed) ==> current[..i] + current[i + 1..] == rs[..i] + Sweep(rs[i..], elapsed)
  {
    SweepUnfold(rs, i, elapsed);
    assert current[..i] == rs[..i];
    assert current[i + 1..] == Sweep(rs[i + 1..], elapsed);
  }

  /** A pass over a concatenation is the concatenation of the passes: order is kept. */
  lemma {:induction false} SweepConcat(a: seq<Ripple>, b: seq<Ripple>, elapsed: real)
    requires Durable(a) && Durable(b)
    ensures Durable(a + b)
    ensures Sweep(a + b, elapsed) == Sweep(a, elapsed) + Sweep(b, elapsed)
  {
    if a == [] {
      assert a + b == b;
    } else {
      assert (a + b)[0] == a[0];
      assert (a + b)[1..] == a[1..] + b;
      SweepConcat(a[1..], b, elapsed);
    }
  }

  /** After a pass no expired ripple remains, and every survivor is strictly younger than its duration. */
  lemma {:induction false} SweepOnlyLive(rs: seq<Ripple>, elapsed: real)
    requires Durable(rs)
    ensures Durable(Sweep(rs, elapsed))
    ensures forall r :: r in Sweep(rs, elapsed) ==> Live(r, elapsed)
    ensures |Sweep(rs, elapsed)| <= |rs|
  {
    if rs != [] {
      SweepOnlyLive(rs[1..], elapsed);
    }
  }

  /** A ripple survives a pass (re-animated) exactly when it is live, and nothing else appears. */
  lemma {:induction false} SweepMembers(rs: seq<Ripple>, elapsed: real)
    requires Durable(rs)
    ensures forall r :: r in rs && Live(r, elapsed) ==> Refresh(r, elapsed) in Sweep(rs, elapsed)
    ensures forall s :: s in Sweep(rs, elapsed) ==>
              exists r :: r in rs && Live(r, elapsed) && s == Refresh(r, elapsed)
  {
    if rs != [] {
      SweepMembers(rs[1..], elapsed);
      assert forall r :: r in rs ==> r == rs[0] || r in rs[1..];
      assert forall s :: s in Sweep(rs, elapsed) ==> s in Keep(rs[0], elapsed) || s in Sweep(rs[1..], elapsed);
    }
  }

  /** A ripple whose age has reached its duration is gone after a pass. */
  lemma SweepRemovesExpired(rs: seq<Ripple>, r: Ripple, elapsed: real)
    requires Durable(rs) && r in rs && !Live(r, elapsed)
    ensures forall s :: s in Sweep(rs, elapsed) ==>
              (s.position, s.creationTime, s.duration) != (r.position, r.creationTime, r.duration)
  {
    SweepMembers(rs, elapsed);
  }

  /** Sweeping twice at the same time changes nothing more. */
  lemma {:induction false} SweepIdempotent(rs: seq<Ripple>, elapsed: real)
    requires Durable(rs)
    ensures Durable(Sweep(rs, elapsed))
    ensures Sweep(Sweep(rs, elapsed), elapsed) == Sweep(rs, elapsed)
  {
    SweepOnlyLive(rs, elapsed);
    if rs != [] {
      var head := Keep(rs[0], elapsed);
      SweepIdempotent(rs[1..], elapsed);
      SweepOnlyLive(rs[1..], elapsed);
      SweepConcat(head, Sweep(rs[1..], elapsed), elapsed);
      if Live(rs[0], elapsed) {
        var a := Refresh(rs[0], elapsed);
        assert Sweep(head, elapsed) == Keep(a, elapsed) + Sweep([], elapsed);
      }
    }
  }

  /** A ripple spawned at the current time is visible to the very next pass. */
  lemma SweepKeepsNewRipple(rs: seq<Ripple>, point: Vec3, elapsed: real)
    requires Durable(rs)
    ensures Durable(rs + [NewRipple(point, elapsed)])
    ensures Sweep(rs + [NewRipple(point, elapsed)], elapsed) == Sweep(rs, elapsed) + [NewRipple(point, elapsed)]
  {
    var n := NewRipple(point, elapsed);
    SweepConcat(rs, [n], elapsed);
    assert Sweep([n], elapsed) == Keep(n, elapsed) + Sweep([], elapsed);
  }

  /**
   * Lifecycle of one ripple: created at `t0`, it is still present after a
   * pass at any `t < t0 + 3` and gone after a pass at any `t >= t0 + 3`.
   */
  lemma RippleLifecycle(point: Vec3, t0: real, t: real)
    ensures var r := NewRipple(point, t0);
            |Sweep([r], t)| == (if t < t0 + RippleDuration then 1 else 0)
  {
    var r := NewRipple(point, t0);
    assert Sweep([r], t) == Keep(r, t) + Sweep([], t);
  }

  /** A ripple created at time 0, checked half-way through its life and just after it. */
  lemma RippleScenario(point: Vec3)
    ensures var r := NewRipple(point, 0.0);
            && Sweep([r], 1.5) == [r.(look := Look(5.1, 0.3, 0.5, 3.5))]
            && Sweep([r], 3.01) == []
  {
    var r := NewRipple(point, 0.0);
    assert Sweep([r], 1.5) == Keep(r, 1.5) + Sweep([], 1.5);
    assert Sweep([r], 3.01) == Keep(r, 3.01) + Sweep([], 3.01);
    assert 1.5 / 3.0 == 0.5;
  }
}
