# PodGroup protocol for RoleBasedGroup workloads

A Dafny model of the gang-scheduling protocol layer of the RoleBasedGroup
controller (`pkg/scheduler`). A RoleBasedGroup workload may ask for gang
scheduling (all pods placed together or none) from one of two backends:
Kubernetes-native gang scheduling (the scheduler-plugins PodGroup) or Volcano,
which also takes a priority class and a queue. The layer does two things:

- `InjectPodGroupProtocol(rbg, pts)` writes the backend's group reference into
  a pod template in place. The native backend gets the label
  `KubePodGroupLabelKey`, Volcano gets the annotation
  `VolcanoPodGroupAnnotationKey`, and in both cases the value is the workload's
  name. A workload with no gang scheduling leaves the template unchanged.
- `GetPodGroupCrdName(rbg)` names the PodGroup custom resource definition of
  the workload's backend: `KubePodGroupCrdName`, `VolcanoPodGroupCrdName`, or
  `""` when there is no gang scheduling.

The model states the contract asserted by
pkg/scheduler/podgroup_manager_test.go, generalised to every workload and
every starting template.

Layout:

- `wrappers.dfy` (`Wrappers`): `Option`. A Go map that may be nil is an
  `Option<map<string, string>>`.
- `gang_config.dfy` (`GangConfig`): the well-known names, the configuration
  `GangSchedulingConfig = NoGangScheduling | KubeGangScheduling |
  VolcanoGangScheduling(priorityClassName, queueName)`, the workload record
  `RoleBasedGroup(name, namespace, gang)` and `SchedulerBackend`. Injection and
  CRD naming share this one classification.
- `pod_template.dfy` (`PodGroupProtocol`): the specification function
  `Injected` on metadata values. It also holds the class `PodTemplateSpec`,
  whose two map fields `InjectPodGroupProtocol` updates in place, and the test
  harness `InjectIntoEmptyTemplate`.
- `crd_name.dfy` (`PodGroupCrd`): `GetPodGroupCrdName` and the lemmas that
  relate it to injection.

The test starts every case from nil label and annotation maps: the
builder calls at pkg/scheduler/podgroup_manager_test.go:53-54 receive empty
maps and so allocate none. Injection must therefore create the map it writes,
which the non-nil checks at :63 and :71 observe; `InjectPodGroupProtocol`
does this, and `InjectIntoEmptyTemplate` states it.

`GetPodGroupCrdName` returns a per-backend CRD-name constant, as
TestGetPodGroupCrdName expects (pkg/scheduler/podgroup_manager_test.go:103,
:109). It depends on neither the workload's name nor its namespace.

The four constants carry representative values, taken from the public
naming conventions of the two schedulers. No proof relies on these values
beyond the four being non-empty and pairwise distinct.

## Model

| member | source | states |
|---|---|---|
| `GangConfig.SchedulerBackend` | pkg/scheduler/podgroup_manager_test.go:22-45 | each configuration selects exactly one backend: native exactly for Kube gang scheduling, Volcano exactly for a Volcano configuration, none exactly when nothing is configured |
| `PodGroupProtocol.Injected` | pkg/scheduler/podgroup_manager_test.go:59-88 | native backend: the label map is present, its `KubePodGroupLabelKey` entry holds the workload's name, other labels are kept, no other label is added, and annotations are untouched; Volcano: the annotation map is present, its `VolcanoPodGroupAnnotationKey` entry holds the workload's name, other annotations are kept, and labels are untouched (further annotations are not excluded); no gang scheduling: the metadata is unchanged; no existing key is ever removed |
| `PodGroupProtocol.NoGangAddsNothing` | pkg/scheduler/podgroup_manager_test.go:40-44 | with no gang scheduling, both maps keep their size and each group key is present afterwards only if it was present before |
| `PodGroupProtocol.InjectionIdempotent` | pkg/scheduler/podgroup_manager_test.go:59 | injecting the same workload twice gives the same metadata as injecting it once |
| `PodGroupProtocol.PassesConverge` | pkg/scheduler/podgroup_manager_test.go:59 | any positive number of successive injections, one per reconcile pass, leaves the template as a single injection does |
| `PodGroupProtocol.InjectPodGroupProtocol` | pkg/scheduler/podgroup_manager_test.go:50-59 | the template's labels and annotations after the in-place update are exactly `Injected` of the workload and the template's previous metadata; a nil map is created only where a key is written |
| `PodGroupProtocol.InjectIntoEmptyTemplate` | pkg/scheduler/podgroup_manager_test.go:48-88 | starting from nil label and annotation maps: Kube creates the label map as exactly `{KubePodGroupLabelKey: name}` and leaves annotations nil; Volcano creates the annotation map with `VolcanoPodGroupAnnotationKey` holding the name and leaves labels nil; no gang scheduling leaves both maps of size 0 and without either group key |
| `PodGroupCrd.GetPodGroupCrdName` | pkg/scheduler/podgroup_manager_test.go:93-124 | returns `KubePodGroupCrdName` for Kube gang scheduling and `VolcanoPodGroupCrdName` for Volcano; the name is empty exactly when no gang scheduling is configured |
| `PodGroupCrd.CrdNameIdentifiesBackend` | pkg/scheduler/podgroup_manager_test.go:99-115 | two workloads get the same CRD name exactly when they select the same backend, whatever their names, namespaces and Volcano parameters |
| `PodGroupCrd.InjectionAgreesWithCrdName` | pkg/scheduler/podgroup_manager_test.go:22-45 | a non-empty CRD name comes with the matching group label or annotation set to the workload's name after injection; an empty one comes with an unchanged template |

## Left out

- The Volcano priority-class and queue hint annotations. The Volcano configuration carries both values, but the keys that receive them are not modelled, so `Injected` writes only the group annotation in the Volcano branch.
- Injected: in the Volcano branch the contract does not exclude annotations beyond the group annotation, leaving room for the priority-class and queue hints.
- InjectIntoEmptyTemplate: in the Volcano case it promises only the group annotation's value, not that it is the sole annotation, because the priority-class and queue hints may be written beside it.
- Kube gang scheduling requested with `enabled=false`. It is never exercised, so `GangSchedulingConfig` has no `enabled` flag, and how such a request maps to a backend is not modelled.
- The client-go `PodTemplateSpecApplyConfiguration` type. Only its two string-to-string maps are modelled, each possibly nil. Its builder methods (`WithLabels`, `WithAnnotations`) are not part of this model; the harness builds the template directly with both maps nil, which is what those builders leave when given empty maps.
- The literal values of `KubePodGroupLabelKey`, `VolcanoPodGroupAnnotationKey`, `KubePodGroupCrdName` and `VolcanoPodGroupCrdName`; representative values are used.
- Creating or looking up PodGroup custom resources, API-server clients and the reconcile loop. These are I/O and external collaborators; `PassesConverge` stands in for repeated reconcile passes.
- Concurrent injection into the same template. The caller must serialise it, so it is not modelled.
- The workload builders and the assertion library of the test. The workload is the record `RoleBasedGroup(name, namespace, gang)`.
