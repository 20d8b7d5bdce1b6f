/**
 The container side of the automation layer: the table of started containers,
 keyed by the name each was started under. The container library is not
 modelled; its answers (start or stop raising, a log line appearing in time,
 the logs fetched) are passed in.
 */
module Containers {
  import opened Wrappers

  /** The handle of a started container: the name it was registered under, its
      image, and an identity telling two starts apart. */
  datatype Container = Container(name: string, image: string, session: nat)

  /** What `get_logs()` returns: the container's standard output and error. */
  datatype Logs = Logs(stdout: seq<bv8>, stderr: seq<bv8>)

  class ContainerOperations {
    /** `self.containers` */
    var containers: map<string, Container>

    constructor ()
      ensures containers == map[]
    {
      containers := map[];
    }

    /** `start_container`: build and start a container; only a start that does
        not raise registers it, replacing whatever was under that name. */
    method StartContainer(name: string, image: string, session: nat, startRaises: bool)
      returns (started: Option<Container>)
      modifies this
      ensures startRaises ==> started.None? && containers == old(containers)
      ensures !startRaises ==> started == Some(Container(name, image, session)) &&
                               containers == old(containers)[name := started.value]
    {
      if startRaises {
        return None;
      }
      var container := Container(name, image, session);
      containers := containers[name := container];
      return Some(container);
    }

    /** `stop_container`: stop and forget the container under `name`. */
    method StopContainer(name: string, stopRaises: bool) returns (ok: bool)
      modifies this
      ensures ok == (name in old(containers) && !stopRaises)
      ensures containers == if ok then old(containers) - {name} else old(containers)
    {
      if name in containers {
        if stopRaises {
          return false;
        }
        containers := containers - {name};
        return true;
      }
      return false;
    }

    /** `wait_for_container_log`: `logSeen` says whether the library's wait
        returns without raising (the message appears within the timeout). */
    method WaitForContainerLog(name: string, logSeen: bool) returns (ok: bool)
      ensures ok <==> name in containers && logSeen
    {
      if name in containers {
        return logSeen;
      }
      return false;
    }

    /** `get_container_logs`: `fetched` is what `get_logs()` returns, `None` when it raises. */
    method GetContainerLogs(name: string, fetched: Option<Logs>) returns (logs: Option<Logs>)
      ensures name !in containers ==> logs.None?
      ensures name in containers ==> logs == fetched
    {
      if name in containers {
        return fetched;
      }
      return None;
    }

    /** `cleanup`: stop every container of a snapshot of the names; the names in
        `failing` are those whose stop() raises. `visited` is the order of the stops. */
    method Cleanup(failing: set<string>) returns (ghost visited: seq<string>)
      modifies this
      ensures forall name :: name in visited <==> name in old(containers)
      ensures forall i, j :: 0 <= i < j < |visited| ==> visited[i] != visited[j]
      ensures containers == map name | name in old(containers) && name in failing :: old(containers)[name]
      ensures old(containers).Keys !! failing ==> containers == map[]
    {
      var pending := containers.Keys;
      visited := [];
      while pending != {}
        invariant pending <= old(containers).Keys
        invariant forall name :: name in visited <==> name in old(containers) && name !in pending
        invariant forall i, j :: 0 <= i < j < |visited| ==> visited[i] != visited[j]
        invariant containers == map name | name in old(containers) && (name in pending || name in failing) :: old(containers)[name]
        decreases pending
      {
        var name :| name in pending;
        var _ := StopContainer(name, name in failing);
        pending := pending - {name};
        visited := visited + [name];
      }
    }
  }
}
