/**
 Pods as a cluster listing reports them, and the two decisions the Kubernetes
 operations take over such a listing: which pod a label selector resolves to,
 and whether one polling pass finds the pod ready.
 */
module Pods {
  import opened Wrappers

  /** The status phase of a pod whose containers have been started. */
  const RunningPhase: string := "Running"

  /** One listed pod: its name, its status phase, and the `ready` flag of each of
      its container statuses (`None` when the status carries no container list). */
  datatype Pod = Pod(name: string, phase: string, containerReady: Option<seq<bool>>)

  /** The answer of one list call: the pods in listing order, or an error raised
      by the cluster client. */
  datatype Listing = Listed(pods: seq<Pod>) | ListError

  predicate IsRunning(p: Pod) {
    p.phase == RunningPhase
  }

  /** `i` is the position of the first running pod in listing order. */
  ghost predicate FirstRunningAt(pods: seq<Pod>, i: int) {
    0 <= i < |pods| && IsRunning(pods[i]) && forall j :: 0 <= j < i ==> !IsRunning(pods[j])
  }

  /** The position of the first running pod at or after `from`, scanning in
      listing order, or `None` when no pod from there on is running. */
  function FirstRunningFrom(pods: seq<Pod>, from: nat): (r: Option<nat>)
    requires from <= |pods|
    ensures r.Some? ==> from <= r.value < |pods| && IsRunning(pods[r.value])
    ensures r.Some? ==> forall j :: from <= j < r.value ==> !IsRunning(pods[j])
    ensures r.None? ==> forall j :: from <= j < |pods| ==> !IsRunning(pods[j])
    decreases |pods| - from
  {
    if from == |pods| then None
    else if IsRunning(pods[from]) then Some(from)
    else FirstRunningFrom(pods, from + 1)
  }

  /** The pod name a label selector resolves to, given the listing the cluster
      returned: the first running pod, else the first pod even though it is not
      running, else nothing. A failed list call resolves to nothing. */
  function SelectedPodName(listing: Listing): (r: Option<string>)
    ensures listing.ListError? ==> r.None?
    ensures listing.Listed? ==> (r.None? <==> |listing.pods| == 0)
    ensures listing.Listed? ==> forall i :: FirstRunningAt(listing.pods, i) ==> r == Some(listing.pods[i].name)
    ensures listing.Listed? && |listing.pods| > 0 && (forall j :: 0 <= j < |listing.pods| ==> !IsRunning(listing.pods[j]))
            ==> r == Some(listing.pods[0].name)
    ensures r.Some? ==> listing.Listed? && exists i :: 0 <= i < |listing.pods| && listing.pods[i].name == r.value
  {
    match listing
    case ListError => None
    case Listed(pods) =>
      if |pods| == 0 then None
      else match FirstRunningFrom(pods, 0)
        case Some(i) => Some(pods[i].name)
        case None => Some(pods[0].name)
  }

  /** Python's `all` over the container `ready` flags: true of the empty list. */
  function AllReady(flags: seq<bool>): (r: bool)
    ensures r <==> forall k :: 0 <= k < |flags| ==> flags[k]
  {
    if |flags| == 0 then true else flags[0] && AllReady(flags[1..])
  }

  /** What one readiness pass observes. A pass raises when the list call fails
      or when `all` is applied to a running pod that has no container list. */
  datatype PassResult = PassReady | PassNotReady | PassRaised

  /** One readiness pass: only the first listed pod is examined. */
  function CheckPass(listing: Listing): (r: PassResult)
    ensures r == PassRaised <==>
              listing.ListError? ||
              (|listing.pods| > 0 && IsRunning(listing.pods[0]) && listing.pods[0].containerReady.None?)
    ensures r == PassReady <==>
              listing.Listed? && |listing.pods| > 0 && IsRunning(listing.pods[0]) &&
              listing.pods[0].containerReady.Some? &&
              forall k :: 0 <= k < |listing.pods[0].containerReady.value| ==> listing.pods[0].containerReady.value[k]
  {
    match listing
    case ListError => PassRaised
    case Listed(pods) =>
      if |pods| == 0 then PassNotReady
      else if !IsRunning(pods[0]) then PassNotReady
      else match pods[0].containerReady
        case None => PassRaised
        case Some(flags) => if AllReady(flags) then PassReady else PassNotReady
  }

  /** Only the first pod of a listing decides a pass; the pods after it are ignored. */
  lemma PassIgnoresLaterPods(first: Pod, rest1: seq<Pod>, rest2: seq<Pod>)
    ensures CheckPass(Listed([first] + rest1)) == CheckPass(Listed([first] + rest2))
  {
  }

  /** A running first pod with an empty container list passes. */
  lemma EmptyContainerListIsReady(first: Pod, rest: seq<Pod>)
    requires IsRunning(first) && first.containerReady == Some([])
    ensures CheckPass(Listed([first] + rest)) == PassReady
  {
  }

  /** When a pass over a listing finds its first pod ready, selecting a pod from
      that same listing gives that first pod. */
  lemma ReadyPassSelectsFirstPod(pods: seq<Pod>)
    requires CheckPass(Listed(pods)) == PassReady
    ensures SelectedPodName(Listed(pods)) == Some(pods[0].name)
  {
  }
}
