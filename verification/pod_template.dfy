/**
 Injection of the PodGroup protocol into a pod template: the backend chosen by
 the workload's configuration decides whether the template's labels or its
 annotations receive the group reference, which is the workload's name.
 */
module PodGroupProtocol {
  import opened Wrappers
  import opened GangConfig

  /** The entries of a map that may be nil; a nil map reads as empty. */
  function Entries(m: Option<map<string, string>>): map<string, string>
  {
    if m.Some? then m.value else map[]
  }

  /** The two metadata maps of a pod template, either of which may be nil. */
  datatype PodMetadata = PodMetadata(labels: Option<map<string, string>>, annotations: Option<map<string, string>>)

  /** `m` with `key` set to `value`, the map created first when it is nil. */
  function Put(m: Option<map<string, string>>, key: string, value: string): (r: Option<map<string, string>>)
    ensures r.Some? && key in r.value && r.value[key] == value
    ensures forall k :: k in Entries(m) && k != key ==> k in r.value && r.value[k] == Entries(m)[k]
    ensures r.value.Keys == Entries(m).Keys + {key}
  {
    Some(Entries(m)[key := value])
  }

  /**
   The metadata after injection for workload `rbg`: the native backend sets
   the group label, Volcano sets the group annotation, each to the workload's
   name; with no gang scheduling nothing changes, nil maps included.
   */
  function Injected(rbg: RoleBasedGroup, m: PodMetadata): (r: PodMetadata)
    ensures SchedulerBackend(rbg.gang) == KubeBackend ==>
      r.labels.Some? && KubePodGroupLabelKey in r.labels.value
      && r.labels.value[KubePodGroupLabelKey] == rbg.name
      && (forall k :: k in Entries(m.labels) && k != KubePodGroupLabelKey ==>
            k in r.labels.value && r.labels.value[k] == Entries(m.labels)[k])
      && r.labels.value.Keys == Entries(m.labels).Keys + {KubePodGroupLabelKey}
      && r.annotations == m.annotations
    ensures SchedulerBackend(rbg.gang) == VolcanoBackend ==>
      r.annotations.Some? && VolcanoPodGroupAnnotationKey in r.annotations.value
      && r.annotations.value[VolcanoPodGroupAnnotationKey] == rbg.name
      && (forall k :: k in Entries(m.annotations) && k != VolcanoPodGroupAnnotationKey ==>
            k in r.annotations.value && r.annotations.value[k] == Entries(m.annotations)[k])
      && r.labels == m.labels
    ensures SchedulerBackend(rbg.gang) == NoBackend ==> r == m
    ensures Entries(m.labels).Keys <= Entries(r.labels).Keys
    ensures Entries(m.annotations).Keys <= Entries(r.annotations).Keys
  {
    match SchedulerBackend(rbg.gang)
    case NoBackend => m
    case KubeBackend => m.(labels := Put(m.labels, KubePodGroupLabelKey, rbg.name))
    case VolcanoBackend => m.(annotations := Put(m.annotations, VolcanoPodGroupAnnotationKey, rbg.name))
  }

  /**
   With no gang scheduling, injection adds nothing: both maps keep their size
   and neither group key appears that was not already there.
   */
  lemma NoGangAddsNothing(rbg: RoleBasedGroup, m: PodMetadata)
    requires rbg.gang == NoGangScheduling
    ensures |Entries(Injected(rbg, m).labels)| == |Entries(m.labels)|
    ensures |Entries(Injected(rbg, m).annotations)| == |Entries(m.annotations)|
    ensures KubePodGroupLabelKey in Entries(Injected(rbg, m).labels) <==> KubePodGroupLabelKey in Entries(m.labels)
    ensures VolcanoPodGroupAnnotationKey in Entries(Injected(rbg, m).annotations)
        <==> VolcanoPodGroupAnnotationKey in Entries(m.annotations)
  {
  }

  /** A second injection with the same workload changes nothing: writes overwrite fixed keys. */
  lemma InjectionIdempotent(rbg: RoleBasedGroup, m: PodMetadata)
    ensures Injected(rbg, Injected(rbg, m)) == Injected(rbg, m)
  {
    match SchedulerBackend(rbg.gang)
    case NoBackend =>
    case KubeBackend =>
      var l := Entries(Injected(rbg, m).labels);
      assert l[KubePodGroupLabelKey := rbg.name] == l;
    case VolcanoBackend =>
      var a := Entries(Injected(rbg, m).annotations);
      assert a[VolcanoPodGroupAnnotationKey := rbg.name] == a;
  }

  /** The metadata after `n` reconcile passes, each injecting the same workload. */
  function InjectPasses(rbg: RoleBasedGroup, m: PodMetadata, n: nat): PodMetadata
    decreases n
  {
    if n == 0 then m else InjectPasses(rbg, Injected(rbg, m), n - 1)
  }

  /** Any positive number of reconcile passes leaves the template as a single pass does. */
  lemma {:induction false} PassesConverge(rbg: RoleBasedGroup, m: PodMetadata, n: nat)
    requires n >= 1
    ensures InjectPasses(rbg, m, n) == Injected(rbg, m)
    decreases n
  {
    if n > 1 {
      PassesConverge(rbg, Injected(rbg, m), n - 1);
      InjectionIdempotent(rbg, m);
    }
  }

  /** The mutable part of a pod template that injection writes: its labels and annotations. */
  class PodTemplateSpec {
    var Labels: Option<map<string, string>>
    var Annotations: Option<map<string, string>>

    constructor (labels: Option<map<string, string>>, annotations: Option<map<string, string>>)
      ensures Labels == labels && Annotations == annotations
    {
      Labels := labels;
      Annotations := annotations;
    }

    function Metadata(): PodMetadata
      reads this
    {
      PodMetadata(Labels, Annotations)
    }
  }

  /**
   Writes the workload's PodGroup protocol into `pts` in place: the backend is
   selected once, the map it needs is created if nil, and the group key is set
   to the workload's name. Pre-existing entries under other keys are kept.
   */
  method InjectPodGroupProtocol(rbg: RoleBasedGroup, pts: PodTemplateSpec)
    modifies pts
    ensures pts.Metadata() == Injected(rbg, old(pts.Metadata()))
  {
    var backend := SchedulerBackend(rbg.gang);
    if backend == KubeBackend {
      if pts.Labels.None? {
        pts.Labels := Some(map[]);
      }
      pts.Labels := Some(pts.Labels.value[KubePodGroupLabelKey := rbg.name]);
    } else if backend == VolcanoBackend {
      if pts.Annotations.None? {
        pts.Annotations := Some(map[]);
      }
      pts.Annotations := Some(pts.Annotations.value[VolcanoPodGroupAnnotationKey := rbg.name]);
    }
  }

  /**
   One run of the injection test: a fresh template whose label and annotation
   maps are both nil (empty builder arguments allocate no map), injected once
   for `rbg`; returns the two maps afterwards, nil included.
   */
  method InjectIntoEmptyTemplate(rbg: RoleBasedGroup)
    returns (labels: Option<map<string, string>>, annotations: Option<map<string, string>>)
    ensures rbg.gang == KubeGangScheduling ==>
      labels.Some? && labels.value == map[KubePodGroupLabelKey := rbg.name] && annotations.None?
    ensures rbg.gang.VolcanoGangScheduling? ==>
      annotations.Some? && VolcanoPodGroupAnnotationKey in annotations.value
      && annotations.value[VolcanoPodGroupAnnotationKey] == rbg.name
      && labels.None?
    ensures rbg.gang == NoGangScheduling ==>
      |Entries(labels)| == 0 && KubePodGroupLabelKey !in Entries(labels)
      && |Entries(annotations)| == 0 && VolcanoPodGroupAnnotationKey !in Entries(annotations)
  {
    var pts := new PodTemplateSpec(None, None);
    InjectPodGroupProtocol(rbg, pts);
    labels := pts.Labels;
    annotations := pts.Annotations;
  }
}
