/**
 The gang-scheduling configuration of a RoleBasedGroup workload, the well-known
 label, annotation and PodGroup CRD names, and the one classification of a
 configuration into the scheduler backend that enforces it.
 */
module GangConfig {

  /** Label that groups pods for the Kubernetes-native (scheduler-plugins) PodGroup; representative value. */
  const KubePodGroupLabelKey: string := "scheduling.x-k8s.io/pod-group"
  /** Annotation that groups pods for a Volcano PodGroup; representative value. */
  const VolcanoPodGroupAnnotationKey: string := "scheduling.k8s.io/group-name"
  /** Name of the Kubernetes-native PodGroup custom resource definition; representative value. */
  const KubePodGroupCrdName: string := "podgroups.scheduling.x-k8s.io"
  /** Name of the Volcano PodGroup custom resource definition; representative value. */
  const VolcanoPodGroupCrdName: string := "podgroups.scheduling.volcano.sh"

  /**
   The workload's gang-scheduling request: none, Kubernetes-native gang
   scheduling, or Volcano with its priority class and queue. Being a closed
   sum type, "both backends configured" cannot be written down.
   */
  datatype GangSchedulingConfig =
    | NoGangScheduling
    | KubeGangScheduling
    | VolcanoGangScheduling(priorityClassName: string, queueName: string)

  /** The workload itself: its identity and its gang-scheduling request. */
  datatype RoleBasedGroup = RoleBasedGroup(name: string, namespace: string, gang: GangSchedulingConfig)

  /** The scheduler backend responsible for grouping a workload's pods. */
  datatype Backend = NoBackend | KubeBackend | VolcanoBackend

  /**
   The single classification shared by injection and CRD naming: each
   configuration selects exactly one backend, and an absent configuration
   selects none (fail closed).
   */
  function SchedulerBackend(config: GangSchedulingConfig): (b: Backend)
    ensures b == NoBackend <==> config == NoGangScheduling
    ensures b == KubeBackend <==> config == KubeGangScheduling
    ensures b == VolcanoBackend <==> config.VolcanoGangScheduling?
  {
    match config
    case NoGangScheduling => NoBackend
    case KubeGangScheduling => KubeBackend
    case VolcanoGangScheduling(_, _) => VolcanoBackend
  }
}
