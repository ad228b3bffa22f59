/**
 * The Docker daemon as the backup run sees it through its client: every call
 * either returns or throws, and the calls that returned form a log of events.
 * Which calls throw is fixed in advance by an environment: the call with a
 * given index (counted from the first call of the run) throws when that index
 * is one of the faults, and an inspection of a container the daemon does not
 * know always throws. The client library, the network and the daemon itself
 * are not part of this model.
 */
module Runtime {
  import opened Wrappers
  import opened Mounts

  /** One call into the Docker client. Helper containers are named by the id
      the daemon gives them when they are created. */
  datatype Event =
    | Ping
    | Inspect(container: string)
    | Pull(image: string)
    | Create(id: nat, image: string, binds: seq<string>, volumesFrom: seq<string>, openStdin: bool)
    | Start(id: nat)
    | Exec(id: nat, cmd: seq<string>)
    | Stop(id: nat)
    | Remove(id: nat)

  /** What the daemon knows (the mount table of each existing container) and
      which calls fail for reasons outside the model (network, daemon errors,
      a missing image, ...). */
  datatype Env = Env(inventory: map<string, seq<Mount>>, faults: set<nat>)

  /** Call number `j`, issuing `e`, throws. */
  predicate Fails(env: Env, j: nat, e: Event) {
    j in env.faults || (e.Inspect? && e.container !in env.inventory)
  }

  /** No call among `events`, issued from call number `start` on, throws. */
  ghost predicate NoFault(env: Env, start: nat, events: seq<Event>) {
    forall j :: 0 <= j < |events| ==> !Fails(env, start + j, events[j])
  }

  /** Issuing `planned` from call number `start` on, stopping at the first call
      that throws, leaves `done` in the log: `done` is the longest prefix of
      `planned` whose calls all return, and `ok` says that it is all of it. */
  ghost predicate Ran(env: Env, start: nat, planned: seq<Event>, done: seq<Event>, ok: bool) {
    && done <= planned
    && NoFault(env, start, done)
    && (ok <==> done == planned)
    && (!ok ==> |done| < |planned| && Fails(env, start + |done|, planned[|done|]))
  }

  /** The log a plan leaves is determined by the plan and the environment. */
  lemma RanUnique(env: Env, start: nat, planned: seq<Event>,
                  d1: seq<Event>, ok1: bool, d2: seq<Event>, ok2: bool)
    requires Ran(env, start, planned, d1, ok1) && Ran(env, start, planned, d2, ok2)
    ensures d1 == d2 && ok1 == ok2
  {
  }

  /** Running two plans one after the other: the second starts only when the
      first ran in full. */
  lemma RanThen(env: Env, start: nat, a: seq<Event>, b: seq<Event>, db: seq<Event>, ok: bool)
    requires Ran(env, start, a, a, true)
    requires Ran(env, start + |a|, b, db, ok)
    ensures Ran(env, start, a + b, a + db, ok)
  {
    forall j | 0 <= j < |a + db|
      ensures !Fails(env, start + j, (a + db)[j])
    {
      if j >= |a| {
        assert (a + db)[j] == db[j - |a|];
      }
    }
    if !ok {
      assert (a + b)[|a + db|] == b[|db|];
    }
    assert ok <==> a + db == a + b;
  }

  /** A plan that stopped at a throwing call stops there whatever follows it. */
  lemma RanStoppedExtend(env: Env, start: nat, a: seq<Event>, done: seq<Event>, rest: seq<Event>)
    requires Ran(env, start, a, done, false)
    ensures Ran(env, start, a + rest, done, false)
  {
    assert (a + rest)[|done|] == a[|done|];
  }

  /** A plan whose first `i` calls return and whose next call throws stops
      after those `i` calls. */
  lemma RanStopsAt(env: Env, start: nat, planned: seq<Event>, i: nat)
    requires i < |planned|
    requires NoFault(env, start, planned[..i])
    requires Fails(env, start + i, planned[i])
    ensures Ran(env, start, planned, planned[..i], false)
  {
  }

  /** The client of one run. `log` holds the events of the calls that
      returned, in call order; `calls` counts every call, thrown or not;
      `nextId` is the id the next created container gets. */
  class DockerRuntime {
    const env: Env
    var log: seq<Event>
    var calls: nat
    var nextId: nat

    /** A new client: nothing called yet (`new Docker(dockerOptions)`). */
    constructor (env: Env)
      ensures this.env == env && log == [] && calls == 0 && nextId == 0
    {
      this.env := env;
      log, calls, nextId := [], 0, 0;
    }

    /** A call without a result: `ping`, `pull`, `start`, an exec, `stop`,
        `remove`. It returns (and is logged) unless it throws. */
    method Call(e: Event) returns (ok: bool)
      requires !e.Inspect? && !e.Create?
      modifies this
      ensures ok == !Fails(env, old(calls), e)
      ensures log == (if ok then old(log) + [e] else old(log))
      ensures calls == old(calls) + 1 && nextId == old(nextId)
    {
      ok := !Fails(env, calls, e);
      if ok {
        log := log + [e];
      }
      calls := calls + 1;
    }

    /** `container.inspect()`: the container's mount table, or a throw. */
    method InspectContainer(name: string) returns (mounts: Option<seq<Mount>>)
      modifies this
      ensures mounts.Some? == !Fails(env, old(calls), Inspect(name))
      ensures mounts.Some? ==> name in env.inventory && mounts.value == env.inventory[name]
      ensures log == (if mounts.Some? then old(log) + [Inspect(name)] else old(log))
      ensures calls == old(calls) + 1 && nextId == old(nextId)
    {
      if Fails(env, calls, Inspect(name)) {
        mounts := None;
      } else {
        mounts := Some(env.inventory[name]);
        log := log + [Inspect(name)];
      }
      calls := calls + 1;
    }

    /** `docker.createContainer(...)`: the id of the new container, or a
        throw. */
    method CreateContainer(image: string, binds: seq<string>, volumesFrom: seq<string>, openStdin: bool)
      returns (id: Option<nat>)
      modifies this
      ensures var e := Create(old(nextId), image, binds, volumesFrom, openStdin);
        && id == (if Fails(env, old(calls), e) then None else Some(old(nextId)))
        && log == (if id.Some? then old(log) + [e] else old(log))
      ensures nextId == old(nextId) + (if id.Some? then 1 else 0)
      ensures calls == old(calls) + 1
    {
      var e := Create(nextId, image, binds, volumesFrom, openStdin);
      if Fails(env, calls, e) {
        id := None;
      } else {
        id := Some(nextId);
        log := log + [e];
        nextId := nextId + 1;
      }
      calls := calls + 1;
    }
  }
}
