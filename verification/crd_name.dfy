/**
 The name of the PodGroup custom resource definition a workload's backend
 uses, and how it agrees with what injection writes.
 */
module PodGroupCrd {
  import opened GangConfig
  import opened PodGroupProtocol

  /**
   The PodGroup CRD name of the workload's backend: a fixed name per backend,
   independent of the workload's own name, and empty when no gang scheduling
   is configured.
   */
  function GetPodGroupCrdName(rbg: RoleBasedGroup): (name: string)
    ensures rbg.gang == KubeGangScheduling ==> name == KubePodGroupCrdName
    ensures rbg.gang.VolcanoGangScheduling? ==> name == VolcanoPodGroupCrdName
    ensures name == "" <==> rbg.gang == NoGangScheduling
  {
    match SchedulerBackend(rbg.gang)
    case NoBackend => ""
    case KubeBackend => KubePodGroupCrdName
    case VolcanoBackend => VolcanoPodGroupCrdName
  }

  /**
   Two workloads get the same CRD name exactly when they select the same
   backend; their names, namespaces and Volcano parameters play no part.
   */
  lemma CrdNameIdentifiesBackend(a: RoleBasedGroup, b: RoleBasedGroup)
    ensures GetPodGroupCrdName(a) == GetPodGroupCrdName(b) <==> SchedulerBackend(a.gang) == SchedulerBackend(b.gang)
  {
  }

  /**
   Injection and CRD naming never diverge: a non-empty CRD name comes with
   the matching group key set to the workload's name, and an empty one with
   no change to the template at all.
   */
  lemma InjectionAgreesWithCrdName(rbg: RoleBasedGroup, m: PodMetadata)
    ensures GetPodGroupCrdName(rbg) == KubePodGroupCrdName ==>
      Entries(Injected(rbg, m).labels)[KubePodGroupLabelKey] == rbg.name
    ensures GetPodGroupCrdName(rbg) == VolcanoPodGroupCrdName ==>
      Entries(Injected(rbg, m).annotations)[VolcanoPodGroupAnnotationKey] == rbg.name
    ensures GetPodGroupCrdName(rbg) == "" ==> Injected(rbg, m) == m
  {
  }
}
