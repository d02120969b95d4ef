/** The horizontal pod autoscaler of a boot (pkg/logan/operator/boot_handler_hpa.go). */
module Autoscaler {
  import opened Wrappers
  import opened Difference
  import opened Types

  datatype HpaObject = HpaObject(owned: bool, minReplicas: Option<int>, maxReplicas: int, metrics: seq<MetricSpec>)

  predicate Enabled(spec: BootSpec) {
    spec.hpa.Some? && spec.hpa.value.enable
  }

  /** The bounds are set, as defaulting leaves them. */
  predicate BoundsSet(spec: BootSpec) {
    Enabled(spec) ==> spec.hpa.value.minReplicas.Some? && spec.hpa.value.maxReplicas.Some?
  }

  function NewHpa(spec: BootSpec): HpaObject
    requires Enabled(spec) && BoundsSet(spec)
  {
    HpaObject(true, spec.hpa.value.minReplicas, spec.hpa.value.maxReplicas.value, spec.hpa.value.metrics)
  }

  /** The API server gives an open lower bound the value 1. */
  function StoredHpa(h: HpaObject): HpaObject {
    if h.minReplicas.None? then h.(minReplicas := Some(1)) else h
  }

  predicate IsStored(found: Option<HpaObject>) {
    found.Some? ==> found.value.minReplicas.Some?
  }

  predicate MetricsDiffer(expected: seq<MetricSpec>, found: seq<MetricSpec>) {
    || Missing(expected, found, MetricKey) != []
    || Missing(found, expected, MetricKey) != []
    || Changed(expected, found, MetricKey, SameMetric) != []
  }

  predicate OutOfDate(found: HpaObject, expected: HpaObject) {
    !found.owned || found.minReplicas != expected.minReplicas || found.maxReplicas != expected.maxReplicas
    || MetricsDiffer(expected.metrics, found.metrics)
  }

  datatype HpaOutcome = HpaOutcome(hpa: Option<HpaObject>, written: bool)

  /** One call: the autoscaler left behind, and whether it was created, updated or deleted. */
  function Reconciled(found: Option<HpaObject>, spec: BootSpec): HpaOutcome
    requires BoundsSet(spec)
  {
    if !Enabled(spec) then HpaOutcome(None, found.Some?)
    else if found.None? then HpaOutcome(Some(StoredHpa(NewHpa(spec))), true)
    else if OutOfDate(found.value, NewHpa(spec)) then HpaOutcome(Some(StoredHpa(NewHpa(spec))), true)
    else HpaOutcome(found, false)
  }

  class HpaStore {
    var hpa: Option<HpaObject>

    constructor (hpa: Option<HpaObject>)
      ensures this.hpa == hpa
    {
      this.hpa := hpa;
    }

    method ReconcileHpa(spec: BootSpec) returns (requeue: bool)
      requires BoundsSet(spec)
      modifies this
      ensures HpaOutcome(hpa, requeue) == Reconciled(old(hpa), spec)
    {
      if spec.hpa.None? || !spec.hpa.value.enable {
        if hpa.None? {
          return false;
        }
        hpa := None;
        return true;
      }
      if hpa.None? {
        hpa := Some(StoredHpa(NewHpa(spec)));
        return true;
      }
      var found, expected := hpa.value, NewHpa(spec);
      var changed := false;
      if !found.owned {
        found := found.(owned := true);
        changed := true;
      }
      if expected.minReplicas != found.minReplicas {
        changed := true;
      }
      if expected.maxReplicas != found.maxReplicas {
        changed := true;
      }
      var deleted, added, modified := DifferenceMetric(expected.metrics, found.metrics);
      if |deleted| + |added| + |modified| > 0 {
        changed := true;
      }
      if changed {
        found := found.(minReplicas := expected.minReplicas, maxReplicas := expected.maxReplicas,
            metrics := expected.metrics);
        hpa := Some(StoredHpa(found));
      }
      requeue := changed;
    }
  }

  /** Metrics with one key have one target. */
  ghost predicate MetricsConsistent(metrics: seq<MetricSpec>) {
    KeysDecide(metrics, MetricKey, SameMetric)
  }

  /** An inconsistent metric list differs from every list, itself included. */
  lemma InconsistentDiffers(expected: seq<MetricSpec>, found: seq<MetricSpec>)
    requires !MetricsConsistent(expected)
    ensures MetricsDiffer(expected, found)
  {
    var i, j :| 0 <= i < |expected| && 0 <= j < |expected| && MetricKey(expected[i]) == MetricKey(expected[j])
                && !SameMetric(expected[i], expected[j]);
    MissingMember(expected, found, MetricKey, expected[i]);
    if HasKey(found, MetricKey, MetricKey(expected[i])) {
      var k :| 0 <= k < |found| && MetricKey(found[k]) == MetricKey(expected[i]);
      ChangedMember(expected, found, MetricKey, SameMetric, found[k]);
      assert !SameMetric(expected[i], found[k]) || !SameMetric(expected[j], found[k]);
      assert Replaces(found[k], expected, MetricKey, SameMetric);
    }
  }

  /** Main result: from every stored state, the call after the first writes nothing exactly when the
      autoscaler is off or its metrics are consistent. */
  lemma SecondCallIsQuiet(found: Option<HpaObject>, spec: BootSpec)
    requires IsStored(found) && BoundsSet(spec)
    ensures IsStored(Reconciled(found, spec).hpa)
    ensures !Reconciled(Reconciled(found, spec).hpa, spec).written
            <==> !Enabled(spec) || MetricsConsistent(spec.hpa.value.metrics)
  {
    if Enabled(spec) {
      var metrics := spec.hpa.value.metrics;
      SelfDifference(metrics, MetricKey, SameMetric);
      if !MetricsConsistent(metrics) {
        InconsistentDiffers(metrics, Reconciled(found, spec).hpa.value.metrics);
      }
    }
  }

  /** A call without a write finds the autoscaler exactly when it is enabled, with the bounds of the
      spec and, for unique keys, the same metric under every key. */
  lemma QuietMeansCurrent(found: Option<HpaObject>, spec: BootSpec)
    requires IsStored(found) && BoundsSet(spec)
    requires !Reconciled(found, spec).written
    ensures found.Some? <==> spec.hpa.Some? && spec.hpa.value.enable
    ensures spec.hpa.Some? && spec.hpa.value.enable ==>
              && found.value.owned
              && found.value.minReplicas == spec.hpa.value.minReplicas
              && Some(found.value.maxReplicas) == spec.hpa.value.maxReplicas
              && (UniqueKeys(spec.hpa.value.metrics, MetricKey) && UniqueKeys(found.value.metrics, MetricKey) ==>
                    forall m :: m in spec.hpa.value.metrics <==> m in found.value.metrics)
  {
    if Enabled(spec) {
      if UniqueKeys(spec.hpa.value.metrics, MetricKey) && UniqueKeys(found.value.metrics, MetricKey) {
        NoDifference(spec.hpa.value.metrics, found.value.metrics, MetricKey, SameMetric);
        SameMetrics(spec.hpa.value.metrics, found.value.metrics);
      }
    }
  }

  /** Lists with the same target under every type and name hold the same metrics. */
  lemma SameMetrics(a: seq<MetricSpec>, b: seq<MetricSpec>)
    requires UniqueKeys(a, MetricKey) && UniqueKeys(b, MetricKey) && SameMaps(a, b, MetricKey, SameMetric)
    ensures forall m :: m in a <==> m in b
  {
    forall m
      ensures m in a <==> m in b
    {
      EntryIn(a, MetricKey, MetricKey(m));
      EntryIn(b, MetricKey, MetricKey(m));
      if m in a { EntryIs(a, MetricKey, m); }
      if m in b { EntryIs(b, MetricKey, m); }
    }
  }
}
