/**
 * The health trackers: UHealthComponent
 * (Source/TurretAI/Private/Components/HealthComponent.cpp) and UHealth
 * (Source/CannonAI/Private/Components/Health.cpp), which hold the same logic.
 *
 * As written, OwnerTakeDamage computes the new health from CurrentHealth but
 * never stores it: every notification is the clamp of the unchanged
 * CurrentHealth minus that one hit. `TakeDamage` and `Run` model the code as
 * written and show the difference; `TakeDamageAccumulating` is the evidently
 * intended handler that stores the new health, and the `HealthTracker` class
 * applies it.
 */
module Health {
  import opened EngineTypes

  /** The state of one tracker. */
  datatype Tracker = Tracker(defaultHealth: real, currentHealth: real, isAlive: bool)

  /** The health reported to the owner for one hit: clamped into [0, DefaultHealth]. */
  function NotifiedHealth(t: Tracker, damage: real): real
  {
    Clamp(t.currentHealth - damage, 0.0, t.defaultHealth)
  }

  /** OwnerTakeDamage as written: the new state and the HealthChanged notification sent, if any. */
  function TakeDamage(t: Tracker, damage: real): (r: (Tracker, Option<real>))
    ensures !t.isAlive ==> r == (t, None)
    ensures t.isAlive ==> r.1.Some? && r.0.isAlive == (r.1.value > 0.0)
    ensures r.0.currentHealth == t.currentHealth && r.0.defaultHealth == t.defaultHealth
    ensures t.defaultHealth >= 0.0 && r.1.Some? ==> 0.0 <= r.1.value <= t.defaultHealth
  {
    if t.isAlive then
      var n := NotifiedHealth(t, damage);
      (t.(isAlive := n > 0.0), Some(n))
    else
      (t, None)
  }

  /** The notifications one call sends. */
  function Sent(n: Option<real>): seq<real>
  {
    if n.Some? then [n.value] else []
  }

  /** A run of damage events: the final state and the notifications sent, in order. */
  function Run(t: Tracker, damages: seq<real>): (Tracker, seq<real>)
    decreases |damages|
  {
    if damages == [] then (t, [])
    else
      var step := TakeDamage(t, damages[0]);
      var rest := Run(step.0, damages[1..]);
      (rest.0, Sent(step.1) + rest.1)
  }

  /** Damage received while dead changes nothing and notifies nobody. */
  lemma {:induction false} DeadIsInert(t: Tracker, damages: seq<real>)
    requires !t.isAlive
    ensures Run(t, damages) == (t, [])
    decreases |damages|
  {
    if damages != [] {
      DeadIsInert(t, damages[1..]);
      assert TakeDamage(t, damages[0]) == (t, None);
      assert Sent(None) + [] == [];
    }
  }

  /**
   * Over any run of damage: CurrentHealth is never modified, every
   * notification lies in [0, DefaultHealth], only the last notification can
   * be at or below 0, the tracker ends alive exactly when it started alive and
   * every notification was positive, and the run sends one notification per
   * damage event until the tracker dies.
   */
  lemma {:induction false} RunLatch(t: Tracker, damages: seq<real>)
    requires t.defaultHealth >= 0.0
    ensures var (t', ns) := Run(t, damages);
      && t'.currentHealth == t.currentHealth && t'.defaultHealth == t.defaultHealth
      && (forall i :: 0 <= i < |ns| ==> 0.0 <= ns[i] <= t.defaultHealth)
      && (forall i :: 0 <= i < |ns| - 1 ==> ns[i] > 0.0)
      && (t'.isAlive <==> t.isAlive && forall i :: 0 <= i < |ns| ==> ns[i] > 0.0)
      && |ns| <= |damages|
      && (t'.isAlive ==> |ns| == |damages|)
    decreases |damages|
  {
    if damages == [] {
    } else if !t.isAlive {
      DeadIsInert(t, damages);
    } else {
      var step := TakeDamage(t, damages[0]);
      var t1 := step.0;
      RunLatch(t1, damages[1..]);
      if !t1.isAlive {
        DeadIsInert(t1, damages[1..]);
      }
      var ns := Run(t1, damages[1..]).1;
      var all := Run(t, damages).1;
      assert all == [step.1.value] + ns;
      assert forall i :: 1 <= i < |all| ==> all[i] == ns[i - 1];
      assert forall j :: 0 <= j < |ns| ==> ns[j] == all[j + 1];
      var t' := Run(t, damages).0;
      assert t' == Run(t1, damages[1..]).0;
      if t1.isAlive {
        assert step.1.value > 0.0;
        assert t'.isAlive <==> forall j :: 0 <= j < |ns| ==> ns[j] > 0.0;
        assert t'.isAlive <==> forall i :: 0 <= i < |all| ==> all[i] > 0.0;
      } else {
        assert ns == [] && all == [step.1.value] && all[0] <= 0.0;
        assert !t'.isAlive;
      }
    }
  }

  /**
   * Because CurrentHealth is never written, each notification depends on its
   * own hit only: the i-th notification is the clamp of the unchanged health
   * minus the i-th damage.
   */
  lemma {:induction false} NotificationsIgnorePastHits(t: Tracker, damages: seq<real>)
    ensures var ns := Run(t, damages).1;
      forall i :: 0 <= i < |ns| ==> i < |damages| && ns[i] == NotifiedHealth(t, damages[i])
    decreases |damages|
  {
    if damages != [] {
      if !t.isAlive {
        DeadIsInert(t, damages);
      } else {
        var (t1, n) := TakeDamage(t, damages[0]);
        NotificationsIgnorePastHits(t1, damages[1..]);
        assert NotifiedHealth(t1, damages[0]) == NotifiedHealth(t, damages[0]);
        var ns := Run(t1, damages[1..]).1;
        assert Run(t, damages).1 == [n.value] + ns;
        forall i | 1 <= i < 1 + |ns|
          ensures i < |damages| && ([n.value] + ns)[i] == NotifiedHealth(t, damages[i])
        {
          assert i - 1 < |damages[1..]| && ns[i - 1] == NotifiedHealth(t1, damages[1..][i - 1]);
          assert ([n.value] + ns)[i] == ns[i - 1];
          assert damages[1..][i - 1] == damages[i];
        }
      }
    }
  }

  /** Two hits of 60 on a fresh tracker of 100 both report 40, and the tracker survives. */
  lemma SeparateHitsNeverAccumulate()
    ensures Run(Tracker(100.0, 100.0, true), [60.0, 60.0]) == (Tracker(100.0, 100.0, true), [40.0, 40.0])
  {
    var t := Tracker(100.0, 100.0, true);
    assert NotifiedHealth(t, 60.0) == 40.0;
    assert TakeDamage(t, 60.0) == (t, Some(40.0));
    assert [60.0, 60.0][1..] == [60.0];
    assert [60.0][1..] == [];
    assert Run(t, []) == (t, []);
    assert Sent(Some(40.0)) + [] == [40.0];
    assert Run(t, [60.0]) == (t, [40.0]);
    assert Sent(Some(40.0)) + [40.0] == [40.0, 40.0];
  }

  /**
   * Where the corrected handler parts from the code as written: two hits of
   * 60 on a fresh tracker of 100 leave the corrected tracker dead, while the
   * tracker as written survives both.
   */
  lemma CorrectionDivergesOnRepeatedHits()
    ensures !RunAccumulating(Tracker(100.0, 100.0, true), [60.0, 60.0]).isAlive
    ensures Run(Tracker(100.0, 100.0, true), [60.0, 60.0]).0.isAlive
  {
    var t := Tracker(100.0, 100.0, true);
    SeparateHitsNeverAccumulate();
    var t1 := Tracker(100.0, 40.0, true);
    assert TakeDamageAccumulating(t, 60.0).0 == t1;
    assert [60.0, 60.0][1..] == [60.0];
    assert TakeDamageAccumulating(t1, 60.0).0 == Tracker(100.0, 0.0, false);
    assert [60.0][1..] == [];
  }

  /** The evidently intended handler: it also stores the new health. */
  function TakeDamageAccumulating(t: Tracker, damage: real): (r: (Tracker, Option<real>))
    ensures !t.isAlive ==> r == (t, None)
    ensures t.isAlive ==> r.1 == Some(r.0.currentHealth) && r.0.isAlive == (r.0.currentHealth > 0.0)
    ensures r.0.defaultHealth == t.defaultHealth
    ensures t.defaultHealth >= 0.0 && t.isAlive ==> 0.0 <= r.0.currentHealth <= t.defaultHealth
    ensures t.isAlive && damage >= 0.0 && 0.0 <= t.currentHealth ==> r.0.currentHealth <= t.currentHealth
  {
    if t.isAlive then
      var n := NotifiedHealth(t, damage);
      (t.(currentHealth := n, isAlive := n > 0.0), Some(n))
    else
      (t, None)
  }

  function RunAccumulating(t: Tracker, damages: seq<real>): Tracker
    decreases |damages|
  {
    if damages == [] then t else RunAccumulating(TakeDamageAccumulating(t, damages[0]).0, damages[1..])
  }

  function Sum(damages: seq<real>): real
    decreases |damages|
  {
    if damages == [] then 0.0 else damages[0] + Sum(damages[1..])
  }

  lemma {:induction false} SumNonNegative(damages: seq<real>)
    requires forall i :: 0 <= i < |damages| ==> damages[i] >= 0.0
    ensures Sum(damages) >= 0.0
    decreases |damages|
  {
    if damages != [] {
      SumNonNegative(damages[1..]);
    }
  }

  lemma {:induction false} AccumulatingDeadIsInert(t: Tracker, damages: seq<real>)
    requires !t.isAlive
    ensures RunAccumulating(t, damages) == t
    decreases |damages|
  {
    if damages != [] {
      AccumulatingDeadIsInert(t, damages[1..]);
    }
  }

  /**
   * With the new health stored, a tracker that starts alive with health in
   * (0, DefaultHealth] and takes non-negative hits dies exactly when the
   * cumulative damage reaches its starting health, and while alive its
   * health is the starting health minus the cumulative damage.
   */
  lemma {:induction false} AccumulatingDiesAtCumulativeDamage(t: Tracker, damages: seq<real>)
    requires t.isAlive && 0.0 < t.currentHealth <= t.defaultHealth
    requires forall i :: 0 <= i < |damages| ==> damages[i] >= 0.0
    ensures RunAccumulating(t, damages).isAlive <==> Sum(damages) < t.currentHealth
    ensures RunAccumulating(t, damages).isAlive ==>
      RunAccumulating(t, damages).currentHealth == t.currentHealth - Sum(damages)
    decreases |damages|
  {
    if damages != [] {
      var t1 := TakeDamageAccumulating(t, damages[0]).0;
      SumNonNegative(damages[1..]);
      if t1.isAlive {
        assert t1.currentHealth == t.currentHealth - damages[0];
        AccumulatingDiesAtCumulativeDamage(t1, damages[1..]);
      } else {
        AccumulatingDeadIsInert(t1, damages[1..]);
      }
    }
  }

  /**
   * The component with the damage handler corrected to store the new health:
   * it notifies the owner of each new health while alive, and the last
   * notification is its current health.
   */
  class HealthTracker {
    const defaultHealth: real
    var currentHealth: real
    var isAlive: bool
    /** Every HealthChanged value sent to the owner, in order. */
    var notifications: seq<real>

    function State(): Tracker
      reads this
    {
      Tracker(defaultHealth, currentHealth, isAlive)
    }

    ghost predicate Valid()
      reads this
    {
      && defaultHealth >= 0.0
      && currentHealth == (if notifications == [] then defaultHealth else notifications[|notifications| - 1])
      && (forall i :: 0 <= i < |notifications| ==> 0.0 <= notifications[i] <= defaultHealth)
      && (forall i :: 0 <= i < |notifications| - 1 ==> notifications[i] > 0.0)
      && (isAlive <==> notifications == [] || notifications[|notifications| - 1] > 0.0)
    }

    /** `defaultHealth` is the configured DefaultHealth, which the editor keeps at 0 or above. */
    constructor (defaultHealth: real)
      requires defaultHealth >= 0.0
      ensures Valid()
      ensures this.defaultHealth == defaultHealth
      ensures isAlive && currentHealth == defaultHealth && notifications == []
    {
      this.defaultHealth := defaultHealth;
      isAlive := true;
      currentHealth := defaultHealth;
      notifications := [];
    }

    /** OwnerTakeDamage, storing the new health. */
    method OwnerTakeDamage(damage: real) returns (notified: Option<real>)
      requires Valid()
      modifies this`currentHealth, this`isAlive, this`notifications
      ensures Valid()
      ensures (State(), notified) == TakeDamageAccumulating(old(State()), damage)
      ensures notifications == old(notifications) + Sent(notified)
    {
      notified := None;
      if isAlive {
        var newHealth := Clamp(currentHealth - damage, 0.0, defaultHealth);
        currentHealth := newHealth;
        isAlive := newHealth > 0.0;
        notified := Some(newHealth);
        notifications := notifications + [newHealth];
      }
    }
  }

  /** A valid tracker has sent at most one notification at or below 0. */
  lemma AtMostOneFatalNotification(h: HealthTracker, i: int, j: int)
    requires h.Valid()
    requires 0 <= i < |h.notifications| && 0 <= j < |h.notifications|
    requires h.notifications[i] <= 0.0 && h.notifications[j] <= 0.0
    ensures i == j && !h.isAlive
  {
  }
}
