/**
 * The backup run of src/index.ts (`dockerVolumeBackup`): connect, inspect
 * every named container, build the target table, then for each container in
 * turn prepare a helper container, run one exec in it per discovered volume
 * and close it. Any throw ends the whole run at once (the single top-level
 * `catch`): no later call is made, and no helper is cleaned up.
 *
 * The calls the run makes when nothing throws are given by `Plan`; the run
 * itself is proved to leave exactly the longest prefix of that plan whose
 * calls all return (`Runtime.Ran`).
 */
module Backup {
  import opened Wrappers
  import opened Mounts
  import opened Targets
  import opened Runtime

  /** The helper container's image. */
  const ImageName := "alpine"
  /** Where the helper sees the working directory. */
  const BackupMountPoint := "/docker-volume-backup"
  /** The command each exec runs in the helper. */
  const TestCommand := ["echo", "Hello World"]

  /** The bind of the working directory `cwd` into the helper. */
  function HelperBind(cwd: string): string {
    cwd + ":" + BackupMountPoint
  }

  /** `prepareContainer`: pull the image, create the helper with the working
      directory bound and the volumes of `forContainer`, start it. The helper
      started is the one just created. */
  function PrepareEvents(forContainer: string, id: nat, cwd: string): (s: seq<Event>)
    ensures |s| == 3 && s[1].Create? && s[1].id == id && s[1].volumesFrom == [forContainer]
    ensures s[2] == Start(s[1].id)
  {
    [Pull(ImageName), Create(id, ImageName, [HelperBind(cwd)], [forContainer], true), Start(id)]
  }

  /** `n` runs of `test`: one exec of the test command each. */
  function ExecEvents(id: nat, n: nat): (s: seq<Event>)
    ensures |s| == n && forall i :: 0 <= i < n ==> s[i] == Exec(id, TestCommand)
  {
    seq(n, _ => Exec(id, TestCommand))
  }

  /** `closeContainer`: stop the helper, then remove it. */
  function CloseEvents(id: nat): seq<Event> {
    [Stop(id), Remove(id)]
  }

  /** The calls made for one container with `n` discovered volumes, its helper
      getting id `id`: five calls besides the execs, the helper created
      second, and stopped and removed last. */
  function ContainerEvents(name: string, id: nat, n: nat, cwd: string): (s: seq<Event>)
    ensures |s| == n + 5 && s[1] == PrepareEvents(name, id, cwd)[1]
    ensures s[|s| - 2] == Stop(id) && s[|s| - 1] == Remove(id)
  {
    PrepareEvents(name, id, cwd) + ExecEvents(id, n) + CloseEvents(id)
  }

  /** The backup loop over `cs` in order; the helper of `cs[i]` is the
      `i`-th container created in the run. */
  function BackupEvents(cs: seq<string>, targets: map<string, seq<string>>, cwd: string): seq<Event>
    requires forall c :: c in cs ==> c in targets
    decreases |cs|
  {
    if cs == [] then []
    else
      var k := |cs| - 1;
      BackupEvents(cs[..k], targets, cwd) + ContainerEvents(cs[k], k, |targets[cs[k]]|, cwd)
  }

  /** The inspections of discovery, in order. */
  function InspectEvents(cs: seq<string>): (s: seq<Event>)
    ensures |s| == |cs|
  {
    seq(|cs|, i requires 0 <= i < |cs| => Inspect(cs[i]))
  }

  /** Connecting, then inspecting every container in order: the ping first,
      then one call per container. */
  function DiscoveryEvents(cs: seq<string>): (s: seq<Event>)
    ensures |s| == |cs| + 1 && s[0] == Ping
  {
    [Ping] + InspectEvents(cs)
  }

  /** The destination lists discovery finds, by position. A container the
      daemon does not know has its inspection throw, so what this gives for
      it is never used. */
  function Discovered(cs: seq<string>, inventory: map<string, seq<Mount>>): (ms: seq<seq<string>>)
    ensures |ms| == |cs|
  {
    if cs == [] then []
    else
      var last := cs[|cs| - 1];
      Discovered(cs[..|cs| - 1], inventory)
        + [MountsFromContainer(if last in inventory then inventory[last] else [])]
  }

  /** After the ping, discovery inspects the containers in input order. */
  lemma DiscoveryInOrder(cs: seq<string>, i: nat)
    requires i < |cs|
    ensures DiscoveryEvents(cs)[i + 1] == Inspect(cs[i])
  {
  }

  /** Position `i` of the discovered lists holds the local volumes of the
      container named at position `i`. */
  lemma {:induction false} DiscoveredAt(cs: seq<string>, inventory: map<string, seq<Mount>>, i: nat)
    requires i < |cs| && cs[i] in inventory
    ensures Discovered(cs, inventory)[i] == MountsFromContainer(inventory[cs[i]])
    decreases |cs|
  {
    if i < |cs| - 1 {
      DiscoveredAt(cs[..|cs| - 1], inventory, i);
    }
  }

  /** The target table the run builds. */
  function RunTargets(cs: seq<string>, env: Env): (t: map<string, seq<string>>)
    ensures forall c :: c in cs ==> c in t
  {
    TargetsTable(cs, Discovered(cs, env.inventory))
  }

  /** Every call of a run over `cs` when nothing throws, in order, discovery
      first (`PlanLength` counts them). */
  function Plan(cs: seq<string>, env: Env, cwd: string): (r: seq<Event>)
    ensures DiscoveryEvents(cs) <= r
  {
    DiscoveryEvents(cs) + BackupEvents(cs, RunTargets(cs, env), cwd)
  }

  datatype Outcome = Completed | Aborted

  /** A step of the run that issued `planned`, starting with log `log0`, left
      log `log1`: the events `done` of its calls that returned were appended,
      and they are the longest prefix of `planned` whose calls return. */
  ghost predicate Issued(env: Env, log0: seq<Event>, log1: seq<Event>, planned: seq<Event>,
                         done: seq<Event>, ok: bool)
  {
    log1 == log0 + done && Ran(env, |log0|, planned, done, ok)
  }

  /** `prepareContainer(docker, forContainer)`: the new helper's id, or None
      when one of its calls threw. */
  method PrepareContainer(rt: DockerRuntime, forContainer: string, cwd: string)
    returns (helper: Option<nat>, ghost done: seq<Event>)
    requires rt.calls == |rt.log|
    modifies rt
    ensures Issued(rt.env, old(rt.log), rt.log, PrepareEvents(forContainer, old(rt.nextId), cwd), done, helper.Some?)
    ensures helper.Some? ==> helper.value == old(rt.nextId)
    ensures rt.nextId == old(rt.nextId) + (if |done| >= 2 then 1 else 0)
    ensures rt.calls == |rt.log| + (if helper.Some? then 0 else 1)
  {
    ghost var planned := PrepareEvents(forContainer, rt.nextId, cwd);
    var ok := rt.Call(Pull(ImageName));
    if !ok {
      return None, [];
    }
    helper := rt.CreateContainer(ImageName, [HelperBind(cwd)], [forContainer], true);
    if helper.None? {
      return None, planned[..1];
    }
    ok := rt.Call(Start(helper.value));
    if !ok {
      return None, planned[..2];
    }
    done := planned;
  }

  /** `test(docker, container)`: one exec of the test command in the helper;
      false when it threw. */
  method Test(rt: DockerRuntime, helper: nat) returns (ok: bool, ghost done: seq<Event>)
    requires rt.calls == |rt.log|
    modifies rt
    ensures Issued(rt.env, old(rt.log), rt.log, [Exec(helper, TestCommand)], done, ok)
    ensures rt.nextId == old(rt.nextId)
    ensures rt.calls == |rt.log| + (if ok then 0 else 1)
  {
    ok := rt.Call(Exec(helper, TestCommand));
    done := if ok then [Exec(helper, TestCommand)] else [];
  }

  /** `closeContainer(container)`: stop the helper, then remove it; false when
      one of the calls threw. */
  method CloseContainer(rt: DockerRuntime, helper: nat) returns (ok: bool, ghost done: seq<Event>)
    requires rt.calls == |rt.log|
    modifies rt
    ensures Issued(rt.env, old(rt.log), rt.log, CloseEvents(helper), done, ok)
    ensures rt.nextId == old(rt.nextId)
    ensures rt.calls == |rt.log| + (if ok then 0 else 1)
  {
    ok := rt.Call(Stop(helper));
    if !ok {
      return false, [];
    }
    ok := rt.Call(Remove(helper));
    done := if ok then CloseEvents(helper) else [Stop(helper)];
  }

  /** A fault-free log followed by a step that stopped at a throw: the run
      stops there, whatever the plan holds after the step. */
  lemma StopInPlan(env: Env, start: nat, done: seq<Event>, step: seq<Event>, stepDone: seq<Event>, plan: seq<Event>)
    requires Ran(env, start, done, done, true)
    requires Ran(env, start + |done|, step, stepDone, false)
    requires done + step <= plan
    ensures Ran(env, start, plan, done + stepDone, false)
  {
    RanThen(env, start, done, step, stepDone, false);
    RanStoppedExtend(env, start, done + step, done + stepDone, plan[|done + step|..]);
    assert (done + step) + plan[|done + step|..] == plan;
  }

  /** The backup loop over a prefix of the containers begins the loop over
      all of them. */
  lemma {:induction false} BackupEventsPrefix(cs: seq<string>, targets: map<string, seq<string>>,
                                              cwd: string, j: nat)
    requires forall c :: c in cs ==> c in targets
    requires j <= |cs|
    ensures BackupEvents(cs[..j], targets, cwd) <= BackupEvents(cs, targets, cwd)
    decreases |cs|
  {
    if j == |cs| {
      assert cs[..j] == cs;
    } else {
      var init := cs[..|cs| - 1];
      assert init[..j] == cs[..j];
      BackupEventsPrefix(init, targets, cwd, j);
    }
  }

  /** The loop over the first `k + 1` containers is the loop over the first
      `k` followed by the round of container `k`. */
  lemma BackupEventsSnoc(cs: seq<string>, targets: map<string, seq<string>>, cwd: string, k: nat)
    requires forall c :: c in cs ==> c in targets
    requires k < |cs|
    ensures BackupEvents(cs[..k + 1], targets, cwd)
         == BackupEvents(cs[..k], targets, cwd) + ContainerEvents(cs[k], k, |targets[cs[k]]|, cwd)
  {
    assert cs[..k + 1][..k] == cs[..k];
  }

  /** The blocks of the first `k` containers, followed by the block of the
      next one, begin the backup loop: containers are handled strictly in
      input order, each one's helper prepared, used and closed before the next
      container begins. */
  lemma ContainersInInputOrder(cs: seq<string>, targets: map<string, seq<string>>, cwd: string, k: nat)
    requires forall c :: c in cs ==> c in targets
    requires k < |cs|
    ensures BackupEvents(cs[..k], targets, cwd) + ContainerEvents(cs[k], k, |targets[cs[k]]|, cwd)
            <= BackupEvents(cs, targets, cwd)
  {
    BackupEventsSnoc(cs, targets, cwd, k);
    BackupEventsPrefix(cs, targets, cwd, k + 1);
  }

  /** The number of execs among `events`. */
  function CountExecs(events: seq<Event>): (n: nat)
    ensures n <= |events|
  {
    if events == [] then 0
    else CountExecs(events[..|events| - 1]) + (if events[|events| - 1].Exec? then 1 else 0)
  }

  lemma {:induction false} CountExecsAppend(a: seq<Event>, b: seq<Event>)
    ensures CountExecs(a + b) == CountExecs(a) + CountExecs(b)
    decreases |b|
  {
    if b == [] {
      assert a + b == a;
    } else {
      var n := |b| - 1;
      assert (a + b)[..|a + b| - 1] == a + b[..n];
      CountExecsAppend(a, b[..n]);
    }
  }

  /** A round runs `test` exactly once per volume of its container, and no
      other call of the round is an exec. */
  lemma {:induction false} ContainerExecs(name: string, id: nat, n: nat, cwd: string)
    ensures CountExecs(ContainerEvents(name, id, n, cwd)) == n
  {
    ExecCount(id, n);
    CountExecsAppend(PrepareEvents(name, id, cwd), ExecEvents(id, n));
    CountExecsAppend(PrepareEvents(name, id, cwd) + ExecEvents(id, n), CloseEvents(id));
    var prep, close := PrepareEvents(name, id, cwd), CloseEvents(id);
    assert prep[..2][..1][..0] == [];
    assert CountExecs(prep[..2][..1]) == 0;
    assert CountExecs(prep[..2]) == 0;
    assert close[..1][..0] == [];
    assert CountExecs(close[..1]) == 0;
  }

  lemma {:induction false} ExecCount(id: nat, n: nat)
    ensures CountExecs(ExecEvents(id, n)) == n
  {
    if n > 0 {
      assert ExecEvents(id, n)[..n - 1] == ExecEvents(id, n - 1);
      ExecCount(id, n - 1);
    }
  }

  /** The target list each container of `cs` is backed up with, by position. */
  function VolumesPerContainer(cs: seq<string>, targets: map<string, seq<string>>): (v: seq<seq<string>>)
    requires forall c :: c in cs ==> c in targets
    ensures |v| == |cs| && forall i :: 0 <= i < |cs| ==> v[i] == targets[cs[i]]
  {
    if cs == [] then []
    else VolumesPerContainer(cs[..|cs| - 1], targets) + [targets[cs[|cs| - 1]]]
  }

  /** The backup loop runs `test` once per entry of the target list of each
      container it visits, a repeated name once per occurrence. */
  lemma {:induction false} BackupExecs(cs: seq<string>, targets: map<string, seq<string>>, cwd: string)
    requires forall c :: c in cs ==> c in targets
    ensures CountExecs(BackupEvents(cs, targets, cwd)) == SumLengths(VolumesPerContainer(cs, targets))
    decreases |cs|
  {
    if cs != [] {
      var k := |cs| - 1;
      BackupExecs(cs[..k], targets, cwd);
      CountExecsAppend(BackupEvents(cs[..k], targets, cwd), ContainerEvents(cs[k], k, |targets[cs[k]]|, cwd));
      ContainerExecs(cs[k], k, |targets[cs[k]]|, cwd);
      var v := VolumesPerContainer(cs, targets);
      assert v[..k] == VolumesPerContainer(cs[..k], targets);
    }
  }

  /** Without repeated container names, a run that nothing interrupts makes
      exactly as many execs as the volume count it reports after discovery. */
  lemma DistinctNamesOneExecPerVolume(cs: seq<string>, env: Env, cwd: string)
    requires forall i, j :: 0 <= i < j < |cs| ==> cs[i] != cs[j]
    ensures CountExecs(Plan(cs, env, cwd)) == TotalLength(RunTargets(cs, env))
  {
    var ms := Discovered(cs, env.inventory);
    var targets := RunTargets(cs, env);
    DistinctNamesPairedByIndex(cs, ms);
    assert VolumesPerContainer(cs, targets) == ms;
    DistinctNamesCountAll(cs, ms);
    BackupExecs(cs, targets, cwd);
    CountExecsAppend(DiscoveryEvents(cs), BackupEvents(cs, targets, cwd));
    NoExecInDiscovery(cs);
  }

  /** Apart from its execs, the backup loop makes five calls per container:
      pull, create and start before the execs, stop and remove after them. */
  lemma {:induction false} BackupLength(cs: seq<string>, targets: map<string, seq<string>>, cwd: string)
    requires forall c :: c in cs ==> c in targets
    ensures |BackupEvents(cs, targets, cwd)| == 5 * |cs| + CountExecs(BackupEvents(cs, targets, cwd))
    decreases |cs|
  {
    if cs != [] {
      var k := |cs| - 1;
      BackupLength(cs[..k], targets, cwd);
      ContainerExecs(cs[k], k, |targets[cs[k]]|, cwd);
      CountExecsAppend(BackupEvents(cs[..k], targets, cwd), ContainerEvents(cs[k], k, |targets[cs[k]]|, cwd));
    }
  }

  /** Apart from its execs, a run that nothing interrupts makes one ping and
      six calls per container: its inspection and the five around its
      helper. */
  lemma PlanLength(cs: seq<string>, env: Env, cwd: string)
    ensures |Plan(cs, env, cwd)| == 1 + 6 * |cs| + CountExecs(Plan(cs, env, cwd))
  {
    var targets := RunTargets(cs, env);
    BackupLength(cs, targets, cwd);
    NoExecInDiscovery(cs);
    CountExecsAppend(DiscoveryEvents(cs), BackupEvents(cs, targets, cwd));
  }

  /** Discovery makes no exec. */
  lemma {:induction false} NoExecInDiscovery(cs: seq<string>)
    ensures CountExecs(DiscoveryEvents(cs)) == 0
    decreases |cs|
  {
    if cs != [] {
      var k := |cs| - 1;
      assert DiscoveryEvents(cs)[..|cs|] == DiscoveryEvents(cs[..k]);
      NoExecInDiscovery(cs[..k]);
    }
  }

  /** A round that stopped at a throw never removes its helper: once the
      helper exists, the thrown call leaves it behind, stopped only when the
      throw came from its removal. */
  lemma StoppedRoundLeavesHelper(env: Env, start: nat, name: string, id: nat, n: nat, cwd: string,
                                 done: seq<Event>)
    requires Ran(env, start, ContainerEvents(name, id, n, cwd), done, false)
    ensures Remove(id) !in done
    ensures |done| >= 2 ==> Create(id, ImageName, [HelperBind(cwd)], [name], true) in done
    ensures Stop(id) in done <==> ContainerEvents(name, id, n, cwd)[|done|] == Remove(id)
  {
    var block := ContainerEvents(name, id, n, cwd);
    forall j | 0 <= j < |done|
      ensures done[j] != Remove(id)
    {
      assert done[j] == block[j];
    }
    if |done| >= 2 {
      assert done[1] == block[1];
    }
    if |done| == n + 4 {
      assert done[n + 3] == block[n + 3] == Stop(id);
    } else {
      forall j | 0 <= j < |done|
        ensures done[j] != Stop(id)
      {
        assert done[j] == block[j];
      }
      assert block[|done|] != Remove(id);
    }
  }

  /** A completed backup loop stopped and removed the helper of every
      container. */
  lemma CompletedLoopRemovesEveryHelper(cs: seq<string>, targets: map<string, seq<string>>, cwd: string, k: nat)
    requires forall c :: c in cs ==> c in targets
    requires k < |cs|
    ensures Stop(k) in BackupEvents(cs, targets, cwd) && Remove(k) in BackupEvents(cs, targets, cwd)
  {
    ContainersInInputOrder(cs, targets, cwd, k);
    var pre := BackupEvents(cs[..k], targets, cwd);
    var block := ContainerEvents(cs[k], k, |targets[cs[k]]|, cwd);
    var all := BackupEvents(cs, targets, cwd);
    assert all[|pre| + |block| - 2] == Stop(k);
    assert all[|pre| + |block| - 1] == Remove(k);
  }

  /** A container without local volumes still gets its helper pulled,
      created, started, stopped and removed. */
  lemma NoVolumesStillCycled(name: string, id: nat, cwd: string)
    ensures ContainerEvents(name, id, 0, cwd)
         == [Pull(ImageName), Create(id, ImageName, [HelperBind(cwd)], [name], true), Start(id), Stop(id), Remove(id)]
  {
    assert ExecEvents(id, 0) == [];
  }

  /** Inspection `i` of discovery returned: the inspections that returned
      grow by one and the destination lists by the container's. */
  lemma InspectReturned(env: Env, start: nat, cs: seq<string>, i: nat)
    requires i < |cs|
    requires NoFault(env, start, InspectEvents(cs)[..i])
    requires !Fails(env, start + i, Inspect(cs[i]))
    ensures InspectEvents(cs)[..i + 1] == InspectEvents(cs)[..i] + [Inspect(cs[i])]
    ensures NoFault(env, start, InspectEvents(cs)[..i + 1])
    ensures Discovered(cs[..i + 1], env.inventory)
         == Discovered(cs[..i], env.inventory) + [MountsFromContainer(env.inventory[cs[i]])]
  {
    assert cs[..i + 1][..i] == cs[..i];
  }

  /** Every inspection of discovery returned. */
  lemma DiscoveredAll(env: Env, start: nat, cs: seq<string>)
    requires NoFault(env, start, InspectEvents(cs)[..|cs|])
    ensures Ran(env, start, InspectEvents(cs), InspectEvents(cs), true)
  {
    assert InspectEvents(cs)[..|cs|] == InspectEvents(cs);
  }

  /** `Promise.all(map(containers, name => getMountsFromContainer(...)))`,
      taken one container after the other: the destination lists of all
      containers by position, or None when an inspection threw. */
  method GetAllMounts(rt: DockerRuntime, containers: seq<string>)
    returns (mounts: Option<seq<seq<string>>>, ghost done: seq<Event>)
    requires rt.calls == |rt.log|
    modifies rt
    ensures Issued(rt.env, old(rt.log), rt.log, InspectEvents(containers), done, mounts.Some?)
    ensures mounts.Some? ==> mounts.value == Discovered(containers, rt.env.inventory)
    ensures rt.calls == |rt.log| + (if mounts.Some? then 0 else 1)
    ensures rt.nextId == old(rt.nextId)
  {
    ghost var log0, env := rt.log, rt.env;
    ghost var planned := InspectEvents(containers);
    var found: seq<seq<string>> := [];
    for i := 0 to |containers|
      invariant rt.env == env && rt.nextId == old(rt.nextId)
      invariant rt.log == log0 + planned[..i] && rt.calls == |rt.log|
      invariant NoFault(env, |log0|, planned[..i])
      invariant found == Discovered(containers[..i], env.inventory)
    {
      var info := rt.InspectContainer(containers[i]);
      if info.None? {
        RanStopsAt(env, |log0|, planned, i);
        return None, planned[..i];
      }
      InspectReturned(env, |log0|, containers, i);
      found := found + [MountsFromContainer(info.value)];
    }
    DiscoveredAll(env, |log0|, containers);
    assert containers[..|containers|] == containers;
    return Some(found), planned;
  }

  /** One round of the loop over the containers in `dockerVolumeBackup`:
      prepare a helper for `name`, run `test` once per entry of its target
      list `volumes`, close the helper. False when a call threw; the remaining
      calls of the round are then not made. */
  method BackupContainer(rt: DockerRuntime, name: string, volumes: seq<string>, cwd: string)
    returns (ok: bool, ghost done: seq<Event>)
    requires rt.calls == |rt.log|
    modifies rt
    ensures Issued(rt.env, old(rt.log), rt.log, ContainerEvents(name, old(rt.nextId), |volumes|, cwd), done, ok)
    ensures rt.nextId == old(rt.nextId) + (if |done| >= 2 then 1 else 0)
    ensures rt.calls == |rt.log| + (if ok then 0 else 1)
  {
    ghost var env, base, id := rt.env, rt.log, rt.nextId;
    ghost var n := |volumes|;
    ghost var prep := PrepareEvents(name, id, cwd);
    ghost var block := ContainerEvents(name, id, n, cwd);
    assert block == prep + (ExecEvents(id, n) + CloseEvents(id));

    var helper;
    helper, done := PrepareContainer(rt, name, cwd);
    if helper.None? {
      RanStoppedExtend(env, |base|, prep, done, ExecEvents(id, n) + CloseEvents(id));
      return false, done;
    }

    for t := 0 to |volumes|
      invariant rt.env == env && rt.nextId == id + 1
      invariant done == prep + ExecEvents(id, t)
      invariant rt.log == base + done && rt.calls == |rt.log|
      invariant Ran(env, |base|, done, done, true)
    {
      ghost var step;
      ok, step := Test(rt, helper.value);
      assert ExecEvents(id, t + 1) == ExecEvents(id, t) + [Exec(id, TestCommand)];
      if !ok {
        RanThen(env, |base|, done, [Exec(id, TestCommand)], [], false);
        RanStoppedExtend(env, |base|, done + [Exec(id, TestCommand)], done, block[|done| + 1..]);
        assert block == done + [Exec(id, TestCommand)] + block[|done| + 1..];
        return false, done;
      }
      RanThen(env, |base|, done, [Exec(id, TestCommand)], [Exec(id, TestCommand)], true);
      done := done + step;
    }

    assert done + CloseEvents(id) == block;
    ghost var step;
    ok, step := CloseContainer(rt, helper.value);
    RanThen(env, |base|, done, CloseEvents(id), step, ok);
    done := done + step;
  }

  /** One round of the backup loop, after the rounds of the first `k`
      containers returned in full: either the loop goes on with one more
      round done, or the whole loop stops inside this round. */
  lemma RoundDone(env: Env, start: nat, cs: seq<string>, targets: map<string, seq<string>>, cwd: string,
                  k: nat, done: seq<Event>, step: seq<Event>, ok: bool)
    requires forall c :: c in cs ==> c in targets
    requires k < |cs|
    requires done == BackupEvents(cs[..k], targets, cwd) && NoFault(env, start, done)
    requires Ran(env, start + |done|, ContainerEvents(cs[k], k, |targets[cs[k]]|, cwd), step, ok)
    ensures ok ==> done + step == BackupEvents(cs[..k + 1], targets, cwd)
    ensures ok ==> NoFault(env, start, done + step)
    ensures !ok ==> Ran(env, start, BackupEvents(cs, targets, cwd), done + step, false)
  {
    var block := ContainerEvents(cs[k], k, |targets[cs[k]]|, cwd);
    ContainersInInputOrder(cs, targets, cwd, k);
    BackupEventsSnoc(cs, targets, cwd, k);
    if ok {
      RanThen(env, start, done, block, block, true);
    } else {
      StopInPlan(env, start, done, block, step, BackupEvents(cs, targets, cwd));
    }
  }

  /** The loop `for (const name of containers)` of `dockerVolumeBackup`, from
      a client that has created no container yet: one round per container, in
      order. False when a call threw; nothing is called after it. */
  method BackupContainers(rt: DockerRuntime, containers: seq<string>, targets: map<string, seq<string>>,
                          cwd: string) returns (ok: bool, ghost done: seq<Event>)
    requires forall c :: c in containers ==> c in targets
    requires rt.nextId == 0 && rt.calls == |rt.log|
    modifies rt
    ensures Issued(rt.env, old(rt.log), rt.log, BackupEvents(containers, targets, cwd), done, ok)
    ensures rt.calls == |rt.log| + (if ok then 0 else 1)
  {
    ghost var env, base := rt.env, rt.log;
    done := [];
    for k := 0 to |containers|
      invariant rt.env == env && rt.nextId == k
      invariant done == BackupEvents(containers[..k], targets, cwd)
      invariant rt.log == base + done && rt.calls == |rt.log|
      invariant NoFault(env, |base|, done)
    {
      var name := containers[k];
      ghost var step;
      ok, step := BackupContainer(rt, name, targets[name], cwd);
      RoundDone(env, |base|, containers, targets, cwd, k, done, step, ok);
      done := done + step;
      if !ok {
        return false, done;
      }
    }
    assert containers[..|containers|] == containers;
    return true, done;
  }

  /** Discovery: `docker.ping()`, then the inspection of every container.
      The destination lists by position, or None when a call threw. */
  method Discover(rt: DockerRuntime, containers: seq<string>)
    returns (mounts: Option<seq<seq<string>>>, ghost done: seq<Event>)
    requires rt.log == [] && rt.calls == 0
    modifies rt
    ensures Issued(rt.env, [], rt.log, DiscoveryEvents(containers), done, mounts.Some?)
    ensures mounts.Some? ==> mounts.value == Discovered(containers, rt.env.inventory)
    ensures rt.calls == |rt.log| + (if mounts.Some? then 0 else 1)
    ensures rt.nextId == old(rt.nextId)
  {
    var ok := rt.Call(Ping);
    if !ok {
      return None, [];
    }
    ghost var found;
    mounts, found := GetAllMounts(rt, containers);
    RanThen(rt.env, 0, [Ping], InspectEvents(containers), found, mounts.Some?);
    done := [Ping] + found;
  }

  /** A run whose discovery stopped at a throw makes no further call. */
  lemma DiscoveryThrows(cs: seq<string>, env: Env, cwd: string, found: seq<Event>)
    requires Ran(env, 0, DiscoveryEvents(cs), found, false)
    ensures Ran(env, 0, Plan(cs, env, cwd), found, false)
  {
    RanStoppedExtend(env, 0, DiscoveryEvents(cs), found, BackupEvents(cs, RunTargets(cs, env), cwd));
  }

  /** A run whose discovery returned in full continues with the backup loop. */
  lemma DiscoveryReturns(cs: seq<string>, env: Env, cwd: string, copied: seq<Event>, ok: bool)
    requires Ran(env, 0, DiscoveryEvents(cs), DiscoveryEvents(cs), true)
    requires Ran(env, 1 + |cs|, BackupEvents(cs, RunTargets(cs, env), cwd), copied, ok)
    ensures Ran(env, 0, Plan(cs, env, cwd), DiscoveryEvents(cs) + copied, ok)
  {
    RanThen(env, 0, DiscoveryEvents(cs), BackupEvents(cs, RunTargets(cs, env), cwd), copied, ok);
  }

  /** `dockerVolumeBackup(dockerOptions, containers)` against a daemon that
      behaves as `env` says, with `cwd` the working directory. `trace` is the
      log of the calls that returned and `calls` the number of calls issued;
      `volumes` is the count of the progress message printed after discovery,
      when discovery got that far. The trace is the longest prefix of the plan
      whose calls all return, the run completes exactly when no call of the
      plan throws, and an aborted run issued no call after the one that
      threw. */
  method DockerVolumeBackup(env: Env, containers: seq<string>, cwd: string)
    returns (outcome: Outcome, volumes: Option<nat>, trace: seq<Event>, calls: nat)
    ensures Ran(env, 0, Plan(containers, env, cwd), trace, outcome == Completed)
    ensures calls == |trace| + (if outcome == Completed then 0 else 1)
    ensures volumes.Some? <==> DiscoveryEvents(containers) <= trace
    ensures volumes.Some? ==> volumes.value == TotalLength(RunTargets(containers, env))
  {
    var rt := new DockerRuntime(env);
    var mounts, found := Discover(rt, containers);
    if mounts.None? {
      DiscoveryThrows(containers, env, cwd, found);
      return Aborted, None, rt.log, rt.calls;
    }
    var targets := TargetsTable(containers, mounts.value);
    assert targets == RunTargets(containers, env);
    var count := CountVolumes(targets);
    volumes := Some(count);

    var ok;
    ghost var copied;
    ok, copied := BackupContainers(rt, containers, targets, cwd);
    DiscoveryReturns(containers, env, cwd, copied, ok);
    outcome := if ok then Completed else Aborted;
    trace, calls := rt.log, rt.calls;
  }
}
