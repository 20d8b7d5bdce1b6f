# Kubernetes and container operations: pod selection, readiness polling, session tables

This project models the decision and bookkeeping logic of a small automation
layer over a Kubernetes cluster and a Docker runtime:

- how a label selector is resolved to one pod (`get_pod_name_by_label`): the
  first pod whose phase is `Running`, else the first listed pod even though it
  is not running, else nothing;
- the readiness poll (`wait_for_pod_ready`): each pass looks only at the first
  listed pod, which must be `Running` with every container status ready; the
  poll goes on until the deadline, and a pass that raises ends it with False;
- the table of port forwards keyed by (pod name, local port), written by
  `port_forward` and emptied by `stop_port_forward` and `cleanup`;
- the table of started containers keyed by name, written by `start_container`
  and emptied by `stop_container` and `cleanup`.

Modules: `Wrappers` (the `Option` type), `Pods` (pods, listings, the selection
rule and the readiness pass as functions), `K8s` (class
`KubernetesOperations`), `Containers` (class `ContainerOperations`).

External calls are parameters. A pod listing is a `Listing` value, `ListError`
when the client raises. The wall clock is a trace of `Sample`s: the reading the
loop test takes on each pass, and the listing that pass sees. The trace must
reach the deadline before it ends, since a real clock does. The socket probes,
the start of the forward and its thread, and `close()` / `stop()` raising are
booleans. The container library's results are `Option` values. An exception
the source catches and turns into `False` or `None` is the matching branch of
the model:

- a failed list call;
- `all(...)` applied to a running pod whose status has no container list;
- `connect_ex` on a local port outside 0..65535;
- `close()` or `stop()` raising.

The model follows the code as written. Selection can return a pod that is not
running. Stopping an absent key returns False. Registering a key again
overwrites the old entry without closing or stopping it. If the liveness
probe fails after such an overwrite and `close()` then succeeds, the key is
removed, so the earlier entry is dropped too. An empty label selector and an
empty selected pod name count as absent, because the source tests them for
truthiness.

## Model

| member | source | states |
|---|---|---|
| `Pods.FirstRunningFrom` | k8s_operations.py:160-162 | the position found is of a running pod with no running pod before it; `None` only when no pod from there on is running |
| `Pods.SelectedPodName` | k8s_operations.py:152-168 | `None` for a failed list call or an empty listing, and only then; the first running pod in listing order when there is one, so no later running pod is chosen; the first pod when none is running; any name returned is that of a listed pod |
| `Pods.AllReady` | k8s_operations.py:194 | true exactly when every container `ready` flag is set, so on an empty list too |
| `Pods.CheckPass` | k8s_operations.py:185-195 | a pass succeeds iff the listing has a first pod that is `Running` with a container list whose flags are all ready; it raises iff the list call failed or the running first pod has no container list |
| `Pods.PassIgnoresLaterPods` | k8s_operations.py:190-191 | pods after the first never change a pass's outcome |
| `Pods.EmptyContainerListIsReady` | k8s_operations.py:194 | a running first pod with an empty container list passes |
| `Pods.ReadyPassSelectsFirstPod` | k8s_operations.py:158-195 | on a listing whose pass succeeds, selection gives that listing's first pod |
| `K8s.WaitEnds` | k8s_operations.py:184-200 | once the trace passes the deadline, a wait still going on at pass `k` either succeeds or gives up on a pass at or after `k` |
| `K8s.NoLaterReadyPass` | k8s_operations.py:184-200 | if a pass ends the wait by deadline or exception, no pass counts as the successful one |
| `K8s.ForwardTarget` | k8s_operations.py:221-230 | the pod `port_forward` goes on to probe and forward to: without a selector the given name; with one (`SelectsByLabel` is the truthiness test of `if label_selector:`) a target exists iff the readiness gate opened and the lookup gave a non-empty name, and it is that name; `ValidPort` separately gives the range 0..65535 outside which `connect_ex` at line 234 raises `OverflowError` |
| `K8s.SelectedTargetIsListed` | k8s_operations.py:221-230 | through a label selector, a forward goes to a pod of the lookup listing, only after the readiness gate opened: the first running pod, or the first pod when none runs |
| `K8s.KubernetesOperations.constructor` | k8s_operations.py:11-16 | the port-forward table starts empty |
| `K8s.KubernetesOperations.GetPodNameByLabel` | k8s_operations.py:141-168 | the loop returns exactly the selection rule's answer for the listing |
| `K8s.KubernetesOperations.WaitForPodReady` | k8s_operations.py:170-203 | True iff some pass before the deadline finds the first pod ready, with every earlier pass before the deadline and not ready; on False the deadline passed or a pass raised |
| `K8s.KubernetesOperations.PortForward` | k8s_operations.py:205-292 | False with the table unchanged when the gate fails, no pod name is found, the port is out of range, the port already answers, or the forward fails to start; otherwise the resolved (pod, port) key is set to the new session, overwriting any old one, and if the liveness probe fails the key is stopped again and the result is False |
| `K8s.KubernetesOperations.StopPortForward` | k8s_operations.py:294-318 | True iff the key is present and `close()` does not raise, and then exactly that key is removed; otherwise False with the table unchanged |
| `K8s.KubernetesOperations.StopTwice` | k8s_operations.py:305-315 | after a successful stop a second stop of the same key returns False; an absent key gives False twice |
| `K8s.KubernetesOperations.Cleanup` | k8s_operations.py:320-325 | every key of the snapshot is stopped exactly once; afterwards only the entries whose close failed remain, and none when every close succeeds |
| `Containers.ContainerOperations.constructor` | container_operations.py:8-10 | the container table starts empty |
| `Containers.ContainerOperations.StartContainer` | container_operations.py:12-59 | a start that raises returns `None` with the table unchanged; otherwise the new handle is returned and stored under the name, replacing any earlier one without stopping it |
| `Containers.ContainerOperations.StopContainer` | container_operations.py:61-77 | True iff the name is registered and `stop()` does not raise, and then exactly that name is removed; otherwise False with the table unchanged |
| `Containers.ContainerOperations.WaitForContainerLog` | container_operations.py:79-91 | True iff the name is registered and the library's wait sees the message; False for an unregistered name; the table is not changed |
| `Containers.ContainerOperations.GetContainerLogs` | container_operations.py:93-104 | `None` for an unregistered name, otherwise what the library's `get_logs()` gives (`None` if it raises); the table is not changed |
| `Containers.ContainerOperations.Cleanup` | container_operations.py:106-111 | every name of the snapshot is stopped exactly once; afterwards only the containers whose stop failed remain, and none when every stop succeeds |

## Left out

- Manifest and exec wrappers (`create_deployment`, `create_service`, `delete_deployment`, `delete_service`, `expose_service_nodeport`, `exec_command_in_pod`, k8s_operations.py:18-139): single calls into the cluster client with no logic of their own.
- The relay thread of `port_forward` (k8s_operations.py:246-271): binding the listener, `pf.run()` and its reconnect loop, which retries forever with no bound. This is concurrency and network I/O. Its only effect that the model sees is whether the port answers after the settle delay (`ForwardEnv.alive`).
- `time.sleep` between passes (line 197) and after starting the forward (line 277): these only affect timing, and the model takes timing as input. The clock readings of the trace set how many passes fit before the deadline, and `ForwardEnv.alive` is the result of the probe that runs after the settle delay.
- Floating-point clock arithmetic: `Sample.now` and the start time are exact reals, so rounding in `time.time() - start_time` (line 184) is not modelled.
- A pod whose `status` is `None`: `pod.status.phase` would raise at lines 161 and 192. A `Pod` always has a phase, so the model cannot express this case.
- Messages printed on each branch.
- Where a port probe leaves its socket open: sockets are not modelled.
- The `DockerContainer` builder settings (name, environment, port bindings, command, network mode): these go to the container library. A container handle is its registered name, its image and an opaque identity.
- The order in which `cleanup` visits the keys: Python uses insertion order, while the model picks the keys of the snapshot one by one in an unspecified order. The final table does not depend on the order.
- Lock-guarded access to the tables: the source has no lock, and the model is sequential.
- example.py: a demonstration script with no logic of its own.
