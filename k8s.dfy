/**
 The Kubernetes side of the automation layer: resolving a label selector to a
 pod, polling until the first listed pod is ready, and the table of active
 port forwards keyed by (pod name, local port).

 The cluster client, the wall clock, sockets and the relay thread are not
 modelled; what they answer is passed in: a listing, a trace of clock readings
 with the listing seen on each pass, and booleans for the socket probes and for
 a handle's `close()` raising.
 */
module K8s {
  import opened Wrappers
  import opened Pods

  /** The readiness gate in `port_forward` waits this many seconds. */
  const ReadyGateTimeout: int := 60

  /** The largest TCP port number; `connect_ex` raises for a port outside 0..MaxPort. */
  const MaxPort: int := 65535

  predicate ValidPort(port: int) {
    0 <= port <= MaxPort
  }

  /** One pass of the polling loop: the clock reading taken by the loop test and
      the listing returned on that pass. */
  datatype Sample = Sample(now: real, listing: Listing)

  /** The loop test `time.time() - start_time < timeout` holds at this sample. */
  predicate InTime(s: Sample, start: real, timeout: int) {
    s.now - start < timeout as real
  }

  /** The clock has passed the deadline by the last sample of the trace. */
  predicate DeadlineReached(trace: seq<Sample>, start: real, timeout: int) {
    |trace| > 0 && !InTime(trace[|trace| - 1], start, timeout)
  }

  /** The first `k` passes all ran before the deadline and all found the pod not ready. */
  ghost predicate StillWaiting(trace: seq<Sample>, start: real, timeout: int, k: nat)
    requires k <= |trace|
  {
    forall j :: 0 <= j < k ==> InTime(trace[j], start, timeout) && CheckPass(trace[j].listing) == PassNotReady
  }

  /** Pass `k` is the one on which the wait succeeds. */
  ghost predicate ReadyAtPass(trace: seq<Sample>, start: real, timeout: int, k: int) {
    0 <= k < |trace| && StillWaiting(trace, start, timeout, k) &&
    InTime(trace[k], start, timeout) && CheckPass(trace[k].listing) == PassReady
  }

  /** Pass `k` ends the wait without success: the deadline has passed, or the pass raised. */
  ghost predicate GivesUpAtPass(trace: seq<Sample>, start: real, timeout: int, k: int) {
    0 <= k < |trace| && StillWaiting(trace, start, timeout, k) &&
    (!InTime(trace[k], start, timeout) || CheckPass(trace[k].listing) == PassRaised)
  }

  ghost predicate PodBecomesReady(trace: seq<Sample>, start: real, timeout: int) {
    exists k :: ReadyAtPass(trace, start, timeout, k)
  }

  /** Once the clock passes the deadline, a wait that has not ended by pass `k`
      either succeeds or gives up on a later pass: it cannot run on. */
  lemma {:induction false} WaitEnds(trace: seq<Sample>, start: real, timeout: int, k: nat)
    requires DeadlineReached(trace, start, timeout)
    requires k < |trace| && StillWaiting(trace, start, timeout, k)
    ensures PodBecomesReady(trace, start, timeout) || exists g :: k <= g && GivesUpAtPass(trace, start, timeout, g)
    decreases |trace| - k
  {
    if !InTime(trace[k], start, timeout) || CheckPass(trace[k].listing) == PassRaised {
      assert GivesUpAtPass(trace, start, timeout, k);
    } else if CheckPass(trace[k].listing) == PassReady {
      assert ReadyAtPass(trace, start, timeout, k);
    } else {
      assert k + 1 < |trace|;
      assert StillWaiting(trace, start, timeout, k + 1);
      WaitEnds(trace, start, timeout, k + 1);
    }
  }

  /** The key of the port-forward table. */
  datatype ForwardKey = ForwardKey(pod: string, localPort: int)

  /** The (portforward, thread) pair stored for a forward: to which pod, in which
      namespace and to which pod port it relays; `session` tells forwards apart. */
  datatype ForwardSession = ForwardSession(pod: string, namespace: string, podPort: int, session: nat)

  /** Whether `port_forward` is asked to resolve its pod from a label selector
      (`if label_selector:` is false for a missing or an empty selector). */
  predicate SelectsByLabel(labelSelector: Option<string>) {
    labelSelector.Some? && labelSelector.value != ""
  }

  /** The pod `port_forward` forwards to, or `None` where it gives up before
      touching the port: the given name, or, with a selector, the selected pod
      once the readiness gate is open; an empty selected name counts as none. */
  function ForwardTarget(podName: string, labelSelector: Option<string>, gateOpen: bool, selected: Option<string>): (r: Option<string>)
    ensures !SelectsByLabel(labelSelector) ==> r == Some(podName)
    ensures SelectsByLabel(labelSelector) ==> (r.Some? <==> gateOpen && selected.Some? && selected.value != "")
    ensures SelectsByLabel(labelSelector) && r.Some? ==> r == selected && r.value != ""
  {
    if !SelectsByLabel(labelSelector) then Some(podName)
    else if !gateOpen || selected.None? || selected.value == "" then None
    else selected
  }

  /** Through a selector, the forward targets a pod of the listing: the first
      running one, or the first one when none is running. */
  lemma SelectedTargetIsListed(podName: string, labelSelector: Option<string>, gateOpen: bool, listing: Listing)
    requires SelectsByLabel(labelSelector)
    ensures var t := ForwardTarget(podName, labelSelector, gateOpen, SelectedPodName(listing));
            t.Some? ==> gateOpen && listing.Listed? &&
                        ((exists i :: FirstRunningAt(listing.pods, i) && t.value == listing.pods[i].name) ||
                         ((forall j :: 0 <= j < |listing.pods| ==> !IsRunning(listing.pods[j])) && t.value == listing.pods[0].name))
  {
  }

  /** The outcomes of the external calls one `port_forward` makes. */
  datatype ForwardEnv = ForwardEnv(
    clockStart: real,          // time.time() when the readiness gate starts
    readiness: seq<Sample>,    // the passes of the readiness gate
    listing: Listing,          // the listing seen by the pod lookup
    portInUse: bool,           // the first connect_ex to the local port succeeds
    startRaises: bool,         // building the portforward or starting its thread raises
    session: nat,              // identity of the new forward
    alive: bool,               // the connect_ex after the settle delay succeeds
    closeRaises: bool)         // close() raises when a dead forward is stopped

  class KubernetesOperations {
    /** `self.port_forward_processes` */
    var portForwards: map<ForwardKey, ForwardSession>

    /** Every stored forward relays to the pod named in its key. */
    ghost predicate Valid()
      reads this
    {
      forall key :: key in portForwards ==> portForwards[key].pod == key.pod
    }

    constructor ()
      ensures Valid() && portForwards == map[]
    {
      portForwards := map[];
    }

    /** `get_pod_name_by_label` over the listing the cluster returned. */
    method GetPodNameByLabel(listing: Listing) returns (name: Option<string>)
      ensures name == SelectedPodName(listing)
    {
      match listing
      case ListError =>
        return None;
      case Listed(pods) =>
        if |pods| > 0 {
          for i := 0 to |pods|
            invariant FirstRunningFrom(pods, 0) == FirstRunningFrom(pods, i)
          {
            if IsRunning(pods[i]) {
              return Some(pods[i].name);
            }
          }
          return Some(pods[0].name);
        }
        return None;
    }

    /** `wait_for_pod_ready`: pass after pass, while the clock is before the
        deadline, look at the first listed pod; a pass that raises ends the wait. */
    method WaitForPodReady(start: real, timeout: int, trace: seq<Sample>) returns (ready: bool)
      requires DeadlineReached(trace, start, timeout)
      ensures ready <==> PodBecomesReady(trace, start, timeout)
      ensures !ready ==> exists g :: GivesUpAtPass(trace, start, timeout, g)
    {
      var i := 0;
      while InTime(trace[i], start, timeout)
        invariant 0 <= i < |trace|
        invariant StillWaiting(trace, start, timeout, i)
        decreases |trace| - i
      {
        var pass := CheckPass(trace[i].listing);
        if pass == PassReady {
          assert ReadyAtPass(trace, start, timeout, i);
          return true;
        } else if pass == PassRaised {
          assert GivesUpAtPass(trace, start, timeout, i);
          NoLaterReadyPass(trace, start, timeout, i);
          return false;
        }
        i := i + 1;
      }
      assert GivesUpAtPass(trace, start, timeout, i);
      NoLaterReadyPass(trace, start, timeout, i);
      return false;
    }

    /** `port_forward`: resolve the pod, probe the local port, start the forward,
        record it under (pod, local port), and stop it again if the port does
        not answer after the settle delay. */
    method PortForward(podName: string, localPort: int, podPort: int, namespace: string,
                       labelSelector: Option<string>, env: ForwardEnv) returns (ok: bool)
      requires Valid()
      requires SelectsByLabel(labelSelector) ==> DeadlineReached(env.readiness, env.clockStart, ReadyGateTimeout)
      modifies this
      ensures Valid()
      ensures var target := ForwardTarget(podName, labelSelector,
                                          PodBecomesReady(env.readiness, env.clockStart, ReadyGateTimeout),
                                          SelectedPodName(env.listing));
              if target.None? || !ValidPort(localPort) || env.portInUse || env.startRaises then
                !ok && portForwards == old(portForwards)
              else
                var key := ForwardKey(target.value, localPort);
                ok == env.alive &&
                portForwards == if env.alive || env.closeRaises
                                then old(portForwards)[key := ForwardSession(target.value, namespace, podPort, env.session)]
                                else old(portForwards) - {key}
    {
      var pod := podName;
      if SelectsByLabel(labelSelector) {
        var ready := WaitForPodReady(env.clockStart, ReadyGateTimeout, env.readiness);
        if !ready {
          return false;
        }
        var actual := GetPodNameByLabel(env.listing);
        if actual.None? || actual.value == "" {
          return false;
        }
        pod := actual.value;
      }
      if !ValidPort(localPort) || env.portInUse || env.startRaises {
        return false;
      }
      portForwards := portForwards[ForwardKey(pod, localPort) := ForwardSession(pod, namespace, podPort, env.session)];
      if env.alive {
        return true;
      }
      var _ := StopPortForward(pod, localPort, env.closeRaises);
      return false;
    }

    /** `stop_port_forward`: close and forget the forward under (pod, local port). */
    method StopPortForward(podName: string, localPort: int, closeRaises: bool) returns (ok: bool)
      requires Valid()
      modifies this
      ensures Valid()
      ensures var key := ForwardKey(podName, localPort);
              ok == (key in old(portForwards) && !closeRaises) &&
              portForwards == if ok then old(portForwards) - {key} else old(portForwards)
    {
      var key := ForwardKey(podName, localPort);
      if key in portForwards {
        if closeRaises {
          return false;
        }
        portForwards := portForwards - {key};
        return true;
      }
      return false;
    }

    /** Two successive `stop_port_forward` calls on one key: once the first has
        removed the forward the second returns False; only a first stop whose
        close() raised leaves something for the second to stop. */
    method StopTwice(podName: string, localPort: int, firstRaises: bool, secondRaises: bool)
      returns (first: bool, second: bool)
      requires Valid()
      modifies this
      ensures Valid()
      ensures first ==> !second
      ensures ForwardKey(podName, localPort) !in old(portForwards) ==> !first && !second
      ensures second <==> ForwardKey(podName, localPort) in old(portForwards) && firstRaises && !secondRaises
    {
      first := StopPortForward(podName, localPort, firstRaises);
      second := StopPortForward(podName, localPort, secondRaises);
    }

    /** `cleanup`: stop every forward of a snapshot of the keys; the keys in
        `failing` are those whose close() raises. `visited` is the order of the stops. */
    method Cleanup(failing: set<ForwardKey>) returns (ghost visited: seq<ForwardKey>)
      requires Valid()
      modifies this
      ensures Valid()
      ensures forall key :: key in visited <==> key in old(portForwards)
      ensures forall i, j :: 0 <= i < j < |visited| ==> visited[i] != visited[j]
      ensures portForwards == map key | key in old(portForwards) && key in failing :: old(portForwards)[key]
      ensures old(portForwards).Keys !! failing ==> portForwards == map[]
    {
      var pending := portForwards.Keys;
      visited := [];
      while pending != {}
        invariant Valid()
        invariant pending <= old(portForwards).Keys
        invariant forall key :: key in visited <==> key in old(portForwards) && key !in pending
        invariant forall i, j :: 0 <= i < j < |visited| ==> visited[i] != visited[j]
        invariant portForwards == map key | key in old(portForwards) && (key in pending || key in failing) :: old(portForwards)[key]
        decreases pending
      {
        var key :| key in pending;
        var _ := StopPortForward(key.pod, key.localPort, key in failing);
        pending := pending - {key};
        visited := visited + [key];
      }
    }
  }

  /** No pass after one that ends the wait can count as the successful one. */
  lemma NoLaterReadyPass(trace: seq<Sample>, start: real, timeout: int, g: nat)
    requires GivesUpAtPass(trace, start, timeout, g)
    ensures !PodBecomesReady(trace, start, timeout)
  {
  }
}
