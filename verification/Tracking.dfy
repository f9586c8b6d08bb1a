/**
 Who has a volume mounted. The orchestrator keeps track of every mount of every disk, and so
 no two nodes ever hold mounts of one volume, exactly as long as no unstage or unpublish
 reports success and leaves a mount of a disk on its path.
 */
module Tracking {
  import opened Outcomes
  import opened DiskName
  import opened Cloud
  import opened Attachment
  import opened Mounter
  import opened Cluster
  import H = Handlers
  import N = Node
  import S = System
  import F = Fleet
  import NodeSafety

  /** Some mount of the stack shows a disk. */
  predicate AnyDisk(entries: seq<MountEntry>) {
    exists i :: 0 <= i < |entries| && entries[i].backing.OnDisk?
  }

  /** Whatever disk a mount of the stack shows, the path is in use for it. */
  predicate StackTracked(entries: seq<MountEntry>, node: InstanceId, path: Path, co: Orchestrator) {
    forall i :: 0 <= i < |entries| && entries[i].backing.OnDisk? ==> (entries[i].backing.disk, node, path) in co.inUse
  }

  /** The orchestrator knows of every mount that shows a disk, on every node, at any depth. */
  ghost predicate Tracked(f: F.Fleet, co: Orchestrator) {
    forall node, path :: StackTracked(MountsAt(F.HostOn(f, node), path), node, path, co)
  }

  /** The event ends an unstage or unpublish with success and leaves a mount that shows a disk on its path. */
  ghost predicate Leaks(c: Cluster, e: Event) {
    && e.OnNode? && e.happens.Advance? && F.Running(c.fleet, e.happens.k)
    && var t := c.fleet.tasks[e.happens.k];
    && var f' := Next(c, e).fleet;
    && e.happens.k in f'.tasks && GivesUp(t, f'.tasks[e.happens.k].pc)
    && AnyDisk(F.PathMounts(f', t))
  }

  ghost predicate NeverLeaks(c: Cluster, run: seq<Event>) {
    forall n :: 0 <= n < |run| ==> !Leaks(At(c, run, n), run[n])
  }

  ghost predicate AlwaysTracked(c: Cluster, run: seq<Event>) {
    forall n :: 0 <= n <= |run| ==> Tracked(At(c, run, n).fleet, At(c, run, n).co)
  }

  // ---------- one command ----------

  /** What the source of a mount shows, if it shows a disk, is the volume itself. */
  lemma SourceIsOwn(cloud: CloudState, f: F.Fleet, co: Orchestrator, t: F.Task)
    requires FleetOrderly(f, co) && Tracked(f, co) && Served(cloud, f, co, t)
    requires TaskOrderly(f, co, t) && t.pc.Mounting? && N.Fits(t.call, t.pc)
    ensures BackingOf(F.HostOn(f, t.node), F.DevicesOn(f, t.node), t.pc.source) in {OnDirectory, OnDisk(t.call.id)}
  {
    var h, d, source := F.HostOn(f, t.node), F.DevicesOn(f, t.node), t.pc.source;
    var stack := MountsAt(h, source);
    assert StackTracked(stack, t.node, source, co);
    assert PathsOrderly(co);
    hide Tracked, FleetOrderly, StackTracked, PathsOrderly, MountsAt;
    if t.call.Stage? {
      OwnLink(cloud, f, co, t);
      ByIdPathsUnderDev(t.call.id);
      if stack != [] { StackUnderDev(stack, t.node, source, co); }
    } else if FromDevice(t.call) {
      OwnFile(cloud, t.node, d, source, t.call.id);
    } else {
      assert source == t.call.staging && (t.call.id, t.node, source) in co.inUse;
      if stack != [] { StackIsOwn(stack, (t.call.id, t.node, source), co); }
      StagingIsOrdinary((t.call.id, t.node, source), co);
      OrdinaryPath(cloud, t.call.id, t.node, d, source);
    }
  }

  lemma StackUnderDev(stack: seq<MountEntry>, node: InstanceId, path: Path, co: Orchestrator)
    requires StackTracked(stack, node, path, co) && PathsOrderly(co) && UnderDev(path) && stack != []
    ensures stack[|stack| - 1].backing == OnDirectory
  {
  }

  lemma StackIsOwn(stack: seq<MountEntry>, use: Use, co: Orchestrator)
    requires StackTracked(stack, use.1, use.2, co) && PathsOrderly(co) && use in co.inUse && stack != []
    ensures stack[|stack| - 1].backing in {OnDirectory, OnDisk(use.0)}
  {
    var top := stack[|stack| - 1].backing;
    if top.OnDisk? {
      assert (top.disk, use.1, use.2) in co.inUse;
    }
  }

  lemma StagingIsOrdinary(use: Use, co: Orchestrator)
    requires PathsOrderly(co) && use in co.inUse
    ensures !UnderDev(use.2)
  {
  }

  lemma PushTracked(entries: seq<MountEntry>, entry: MountEntry, co: Orchestrator, use: Use)
    requires StackTracked(entries, use.1, use.2, co) && use in co.inUse && entry.backing in {OnDirectory, OnDisk(use.0)}
    ensures StackTracked(entries + [entry], use.1, use.2, co)
  {
  }

  /** The stack of the call's path one command later. */
  lemma MountStepTracked(cloud: CloudState, f: F.Fleet, co: Orchestrator, t: F.Task)
    requires FleetOrderly(f, co) && Tracked(f, co) && Served(cloud, f, co, t)
    requires TaskOrderly(f, co, t) && t.pc.Mounting? && N.Fits(t.call, t.pc)
    ensures var h' := N.Step(F.HostOn(f, t.node), F.DevicesOn(f, t.node), t.call, t.commands, t.pc).0;
            StackTracked(MountsAt(h', N.TargetOf(t.call)), t.node, N.TargetOf(t.call), co)
  {
    var h, d, target := F.HostOn(f, t.node), F.DevicesOn(f, t.node), N.TargetOf(t.call);
    SourceIsOwn(cloud, f, co, t);
    assert StackTracked(MountsAt(h, target), t.node, target, co);
    var (fsType, options) := N.MountSettings(t.call);
    var entry := MountEntry(BackingOf(h, d, t.pc.source), fsType, options, t.commands.shared);
    hide FleetOrderly, Tracked, Served, BackingOf, N.MountSettings, Mountable, FromDevice, StackTracked;
    PushTracked(MountsAt(h, target), entry, co, UseOf(t.node, t.call));
  }

  /** A command other than mount leaves the stack as it was or takes the newest mount off. */
  lemma StackShrinks(h: Host, d: Devices, t: F.Task)
    requires !t.pc.Ended? && !t.pc.Mounting? && N.Fits(t.call, t.pc)
    ensures var stack, stack' := MountsAt(h, N.TargetOf(t.call)),
                                 MountsAt(N.Step(h, d, t.call, t.commands, t.pc).0, N.TargetOf(t.call));
            stack' <= stack
  {
  }

  lemma ShrunkTracked(stack: seq<MountEntry>, stack': seq<MountEntry>, node: InstanceId, path: Path, co: Orchestrator)
    requires StackTracked(stack, node, path, co) && stack' <= stack
    ensures StackTracked(stack', node, path, co)
  {
  }

  lemma NoDiskTracked(stack: seq<MountEntry>, node: InstanceId, path: Path, co: Orchestrator)
    requires !AnyDisk(stack)
    ensures StackTracked(stack, node, path, co)
  {
  }

  lemma OwnPathTracked(cloud: CloudState, f: F.Fleet, co: Orchestrator, k: nat)
    requires FleetOrderly(f, co) && Tracked(f, co) && F.Running(f, k) && Served(cloud, f, co, f.tasks[k])
    requires var f' := F.AdvanceTask(f, k);
             GivesUp(f.tasks[k], f'.tasks[k].pc) ==> !AnyDisk(F.PathMounts(f', f.tasks[k]))
    ensures var t, f' := f.tasks[k], F.AdvanceTask(f, k);
            StackTracked(F.PathMounts(f', t), t.node, N.TargetOf(t.call), AfterStep(co, t, f'.tasks[k].pc))
  {
    var t, f' := f.tasks[k], F.AdvanceTask(f, k);
    var target := N.TargetOf(t.call);
    assert TaskOrderly(f, co, t);
    if GivesUp(t, f'.tasks[k].pc) {
      NoDiskTracked(F.PathMounts(f', t), t.node, target, AfterStep(co, t, f'.tasks[k].pc));
    } else if t.pc.Mounting? {
      MountStepTracked(cloud, f, co, t);
    } else {
      var h := F.HostOn(f, t.node);
      assert StackTracked(MountsAt(h, target), t.node, target, co);
      StackShrinks(h, F.DevicesOn(f, t.node), t);
      ShrunkTracked(MountsAt(h, target), F.PathMounts(f', t), t.node, target, co);
    }
  }

  /** Giving up one path takes away nothing that another path needs. */
  lemma OtherPathTracked(entries: seq<MountEntry>, node: InstanceId, path: Path, co: Orchestrator,
                         t: F.Task, pc: N.NodePc)
    requires StackTracked(entries, node, path, co) && (node, path) != (t.node, N.TargetOf(t.call))
    ensures StackTracked(entries, node, path, AfterStep(co, t, pc))
  {
  }

  lemma AdvanceTracked(cloud: CloudState, f: F.Fleet, co: Orchestrator, k: nat)
    requires FleetOrderly(f, co) && Tracked(f, co) && F.Running(f, k) && Served(cloud, f, co, f.tasks[k])
    requires var f' := F.AdvanceTask(f, k);
             GivesUp(f.tasks[k], f'.tasks[k].pc) ==> !AnyDisk(F.PathMounts(f', f.tasks[k]))
    ensures Tracked(F.AdvanceTask(f, k), AfterStep(co, f.tasks[k], F.AdvanceTask(f, k).tasks[k].pc))
  {
    var t, f' := f.tasks[k], F.AdvanceTask(f, k);
    var target, pc := N.TargetOf(t.call), f'.tasks[k].pc;
    OwnPathTracked(cloud, f, co, k);
    forall node, path ensures StackTracked(MountsAt(F.HostOn(f', node), path), node, path, AfterStep(co, t, pc)) {
      if (node, path) != (t.node, target) {
        F.StepSparesPath(f, k, node, path);
        assert StackTracked(MountsAt(F.HostOn(f, node), path), node, path, co);
        OtherPathTracked(MountsAt(F.HostOn(f, node), path), node, path, co, t, pc);
      }
    }
  }

  // ---------- one event ----------

  lemma ControlTracked(c: Cluster, e: S.Event)
    requires Tracked(c.fleet, c.co)
    ensures Tracked(Next(c, Control(e)).fleet, Next(c, Control(e)).co)
  {
    var c' := Next(c, Control(e));
    forall node, path ensures StackTracked(MountsAt(F.HostOn(c'.fleet, node), path), node, path, c'.co) {
      assert StackTracked(MountsAt(F.HostOn(c.fleet, node), path), node, path, c.co);
    }
  }

  lemma QuietNodeTracked(c: Cluster, e: F.Event)
    requires Tracked(c.fleet, c.co) && !(e.Advance? && F.Running(c.fleet, e.k))
    ensures Tracked(Next(c, OnNode(e)).fleet, Next(c, OnNode(e)).co)
  {
    var c' := Next(c, OnNode(e));
    assert c.co.inUse <= c'.co.inUse && c'.fleet.mounts == c.fleet.mounts;
    forall node, path ensures StackTracked(MountsAt(F.HostOn(c'.fleet, node), path), node, path, c'.co) {
      assert StackTracked(MountsAt(F.HostOn(c.fleet, node), path), node, path, c.co);
    }
  }

  lemma NextTracked(c: Cluster, e: Event, volumes: set<VolumeId>)
    requires Orderly(c, volumes) && Distinct(c) && Tracked(c.fleet, c.co) && !Leaks(c, e)
    ensures Tracked(Next(c, e).fleet, Next(c, e).co)
  {
    match e
    case Control(event) => ControlTracked(c, event);
    case OnNode(happens) =>
      if happens.Advance? && F.Running(c.fleet, happens.k) {
        AdvancingTracked(c, happens.k, volumes);
      } else {
        QuietNodeTracked(c, happens);
      }
  }

  lemma AdvancingTracked(c: Cluster, k: nat, volumes: set<VolumeId>)
    requires Orderly(c, volumes) && Distinct(c) && Tracked(c.fleet, c.co) && F.Running(c.fleet, k)
    requires !Leaks(c, OnNode(F.Advance(k)))
    ensures Tracked(Next(c, OnNode(F.Advance(k))).fleet, Next(c, OnNode(F.Advance(k))).co)
  {
    hide Tracked, Distinct, AnyDisk, N.Step;
    if AllowsOnNode(c, F.Advance(k)) {
      AllowedMeansServed(c, k, volumes);
      hide ReadyAttached, Confined, Attachable, S.Disciplined;
      AdvanceTracked(c.sys.world.cloud, c.fleet, c.co, k);
    }
  }

  /** A leaked mount is one the orchestrator does not know of. */
  lemma LeakUntracks(c: Cluster, e: Event, volumes: set<VolumeId>)
    requires Orderly(c, volumes) && Leaks(c, e)
    ensures !Tracked(Next(c, e).fleet, Next(c, e).co)
  {
    var k := e.happens.k;
    var t, c' := c.fleet.tasks[k], Next(c, e);
    var entries := F.PathMounts(c'.fleet, t);
    assert TaskOrderly(c.fleet, c.co, t);
    var i :| 0 <= i < |entries| && entries[i].backing.OnDisk?;
    assert c'.co.inUse == c.co.inUse - {UseOf(t.node, t.call)};
    assert (entries[i].backing.disk, t.node, N.TargetOf(t.call)) !in c'.co.inUse;
    assert !StackTracked(entries, t.node, N.TargetOf(t.call), c'.co);
  }

  // ---------- every run ----------

  lemma {:induction false} TrackedWithoutLeaks(w0: H.World, contents: map<VolumeId, Content>, run: seq<Event>, n: nat)
    requires Sound(w0.cloud) && Managed(w0.cloud, Published(run)) && AlwaysDistinct(Start(w0, contents), run)
    requires n <= |run| && NeverLeaks(Start(w0, contents), run)
    ensures var c := At(Start(w0, contents), run, n); Tracked(c.fleet, c.co)
  {
    var c0 := Start(w0, contents);
    if n == 0 {
      NothingMounted(w0, contents, run);
    } else {
      DistinctAt(c0, run, n - 1);
      NoLeakAt(c0, run, n - 1);
      hide *;
      TrackedWithoutLeaks(w0, contents, run, n - 1);
      RunsStayOrderly(w0, contents, run, n - 1);
      AtNext(c0, run, n - 1);
      NextTracked(At(c0, run, n - 1), run[n - 1], Published(run));
    }
  }

  lemma NothingMounted(w0: H.World, contents: map<VolumeId, Content>, run: seq<Event>)
    ensures var c := At(Start(w0, contents), run, 0); Tracked(c.fleet, c.co)
  {
    assert run[..0] == [];
  }

  lemma DistinctAt(c: Cluster, run: seq<Event>, n: nat)
    requires AlwaysDistinct(c, run) && n <= |run|
    ensures Distinct(At(c, run, n))
  {
  }

  lemma NoLeakAt(c: Cluster, run: seq<Event>, n: nat)
    requires NeverLeaks(c, run) && n < |run|
    ensures !Leaks(At(c, run, n), run[n])
  {
  }

  /**
   With an orchestrator that follows the staged lifecycle, over every run of the whole cluster,
   whatever the commands do: the orchestrator knows of every mount that shows a disk, at every
   moment, if and only if no unstage or unpublish ever reports success and leaves a mount of a
   disk on its path.
   */
  lemma TrackedExactly(w0: H.World, contents: map<VolumeId, Content>, run: seq<Event>)
    requires Sound(w0.cloud) && Managed(w0.cloud, Published(run)) && AlwaysDistinct(Start(w0, contents), run)
    ensures AlwaysTracked(Start(w0, contents), run) <==> NeverLeaks(Start(w0, contents), run)
  {
    var c0 := Start(w0, contents);
    if NeverLeaks(c0, run) {
      forall n | 0 <= n <= |run| ensures Tracked(At(c0, run, n).fleet, At(c0, run, n).co) {
        TrackedWithoutLeaks(w0, contents, run, n);
      }
    }
    if AlwaysTracked(c0, run) {
      forall n | 0 <= n < |run| ensures !Leaks(At(c0, run, n), run[n]) {
        if Leaks(At(c0, run, n), run[n]) {
          UntrackedAfter(w0, contents, run, n);
        }
      }
    }
  }

  lemma UntrackedAfter(w0: H.World, contents: map<VolumeId, Content>, run: seq<Event>, n: nat)
    requires Sound(w0.cloud) && Managed(w0.cloud, Published(run)) && AlwaysDistinct(Start(w0, contents), run)
    requires n < |run| && Leaks(At(Start(w0, contents), run, n), run[n])
    ensures var c := At(Start(w0, contents), run, n + 1); !Tracked(c.fleet, c.co)
  {
    hide *;
    RunsStayOrderly(w0, contents, run, n);
    AtNext(Start(w0, contents), run, n);
    LeakUntracks(At(Start(w0, contents), run, n), run[n], Published(run));
  }

  /**
   As long as nothing leaks, in every reachable state of controller and nodes: a mount that
   shows a disk is on the one instance the disk is attached to, so no two nodes ever hold
   mounts of the same volume.
   */
  lemma SingleWriter(w0: H.World, contents: map<VolumeId, Content>, run: seq<Event>,
                     disk: VolumeId, m: InstanceId, p: Path, n: InstanceId, q: Path)
    requires Sound(w0.cloud) && Managed(w0.cloud, Published(run)) && AlwaysDistinct(Start(w0, contents), run)
    requires NeverLeaks(Start(w0, contents), run)
    requires var c := Exec(Start(w0, contents), run); Shows(c, m, p, disk) && Shows(c, n, q, disk)
    ensures m == n && Attached(Exec(Start(w0, contents), run).sys.world.cloud, disk, m)
    ensures forall other :: Attached(Exec(Start(w0, contents), run).sys.world.cloud, disk, other) ==> other == m
  {
    RunsStayOrderly(w0, contents, run, |run|);
    TrackedWithoutLeaks(w0, contents, run, |run|);
    assert run[..|run|] == run;
    var c := Exec(Start(w0, contents), run);
    hide Exec, Start, Published, AlwaysDistinct, NeverLeaks;
    ShownIsAttached(c, m, p, disk, Published(run));
    ShownIsAttached(c, n, q, disk, Published(run));
  }

  lemma ShownIsAttached(c: Cluster, node: InstanceId, path: Path, disk: VolumeId, volumes: set<VolumeId>)
    requires Orderly(c, volumes) && Tracked(c.fleet, c.co) && Shows(c, node, path, disk)
    ensures Attached(c.sys.world.cloud, disk, node) && SingleDisk(c.sys.world.cloud, disk)
  {
    assert StackTracked(MountsAt(F.HostOn(c.fleet, node), path), node, path, c.co);
    assert (disk, node, path) in c.co.inUse;
  }

  // ---------- what leaks ----------

  /**
   A command leaks exactly when it is the findmnt of an unstage or unpublish that ends without
   a word on a path that shows a disk, or a umount that takes the newest of several mounts off
   such a path.
   */
  lemma LeaksExactly(c: Cluster, k: nat, volumes: set<VolumeId>)
    requires Orderly(c, volumes) && F.Running(c.fleet, k)
    ensures var t := c.fleet.tasks[k];
            var stack := F.PathMounts(c.fleet, t);
            Leaks(c, OnNode(F.Advance(k))) <==>
            || (t.pc.CheckingOff? && t.commands.findmnt == StaysSilent && AnyDisk(stack))
            || (t.pc.Unmounting? && t.commands.umount == Done && |stack| > 1 && AnyDisk(stack[..|stack| - 1]))
  {
    var t := c.fleet.tasks[k];
    hide S.Disciplined, Attachable, ReadyAttached, Confined;
    GivingUpExactly(F.HostOn(c.fleet, t.node), F.DevicesOn(c.fleet, t.node), t);
  }

  lemma GivingUpExactly(h: Host, d: Devices, t: F.Task)
    requires !t.pc.Ended? && N.Fits(t.call, t.pc)
    ensures var (h', pc') := N.Step(h, d, t.call, t.commands, t.pc);
            var stack := MountsAt(h, N.TargetOf(t.call));
            GivesUp(t, pc') && AnyDisk(MountsAt(h', N.TargetOf(t.call))) <==>
            || (t.pc.CheckingOff? && t.commands.findmnt == StaysSilent && AnyDisk(stack))
            || (t.pc.Unmounting? && t.commands.umount == Done && |stack| > 1 && AnyDisk(stack[..|stack| - 1]))
  {
  }

  /** The umount that leaks is one of a path that a call with a blind findmnt has mounted on once more. */
  lemma LeakingUmountIsStacked(w0: H.World, contents: map<VolumeId, Content>, run: seq<Event>, n: nat, k: nat)
    returns (i: nat, m: nat, j: nat)
    requires Sound(w0.cloud) && Managed(w0.cloud, Published(run)) && AlwaysDistinct(Start(w0, contents), run)
    requires n < |run| && run[n] == OnNode(F.Advance(k)) && Leaks(At(Start(w0, contents), run, n), run[n])
    requires !At(Start(w0, contents), run, n).fleet.tasks[k].pc.CheckingOff?
    ensures i < m < n && F.StacksAtEvent(Start(w0, contents).fleet, FleetRun(Start(w0, contents), run), i, m, j)
    ensures var t := At(Start(w0, contents), run, n).fleet.tasks[k];
            var u := At(Start(w0, contents), run, m).fleet.tasks;
            j in u && u[j].node == t.node && N.TargetOf(u[j].call) == N.TargetOf(t.call)
  {
    var c0 := Start(w0, contents);
    var c := At(c0, run, n);
    var t := c.fleet.tasks[k];
    RunsStayOrderly(w0, contents, run, n);
    LeaksExactly(c, k, Published(run));
    FleetFollows(c0, run, n);
    assert F.MountedOnce(c0.fleet);
    i, m, j := F.DeepPathIsStacked(c0.fleet, FleetRun(c0, run), n, t.node, N.TargetOf(t.call));
    FleetFollows(c0, run, m);
  }

  // ---------- no leaks without a blind findmnt ----------

  /** The findmnt about to be run, if any, does not end without a word on a path that has a mount. */
  predicate Sighted(c: Cluster, e: Event) {
    e.OnNode? && e.happens.Advance? && F.Running(c.fleet, e.happens.k) ==>
      var t := c.fleet.tasks[e.happens.k];
      t.pc.Checking? || t.pc.CheckingOff? ==>
        !NodeSafety.Blind(F.HostOn(c.fleet, t.node), N.TargetOf(t.call), t.commands)
  }

  ghost predicate AlwaysSighted(c: Cluster, run: seq<Event>) {
    forall n :: 0 <= n < |run| ==> Sighted(At(c, run, n), run[n])
  }

  lemma SightedNeverLeaks(w0: H.World, contents: map<VolumeId, Content>, run: seq<Event>)
    requires Sound(w0.cloud) && Managed(w0.cloud, Published(run)) && AlwaysDistinct(Start(w0, contents), run)
    requires AlwaysSighted(Start(w0, contents), run)
    ensures NeverLeaks(Start(w0, contents), run)
  {
    var c0 := Start(w0, contents);
    forall n | 0 <= n < |run| ensures !Leaks(At(c0, run, n), run[n]) {
      if Leaks(At(c0, run, n), run[n]) {
        var k := run[n].happens.k;
        assert Sighted(At(c0, run, n), run[n]);
        if At(c0, run, n).fleet.tasks[k].pc.CheckingOff? {
          RunsStayOrderly(w0, contents, run, n);
          LeaksExactly(At(c0, run, n), k, Published(run));
        } else {
          var i, m, j := LeakingUmountIsStacked(w0, contents, run, n, k);
          BlindIsUnsighted(c0, run, i, j);
        }
      }
    }
  }

  lemma BlindIsUnsighted(c: Cluster, run: seq<Event>, i: nat, k: nat)
    requires F.BlindAtEvent(c.fleet, FleetRun(c, run), i, k)
    ensures !Sighted(At(c, run, i), run[i])
  {
    FleetFollows(c, run, i);
    assert FleetRun(c, run)[i] == F.Advance(k);
    assert ToFleet(At(c, run, i), run[i]) == F.Advance(k);
  }

  /** Without a blind findmnt no two nodes ever hold mounts of the same volume. */
  lemma SingleWriterWhenSighted(w0: H.World, contents: map<VolumeId, Content>, run: seq<Event>,
                                disk: VolumeId, m: InstanceId, p: Path, n: InstanceId, q: Path)
    requires Sound(w0.cloud) && Managed(w0.cloud, Published(run)) && AlwaysDistinct(Start(w0, contents), run)
    requires AlwaysSighted(Start(w0, contents), run)
    requires var c := Exec(Start(w0, contents), run); Shows(c, m, p, disk) && Shows(c, n, q, disk)
    ensures m == n && Attached(Exec(Start(w0, contents), run).sys.world.cloud, disk, m)
  {
    SightedNeverLeaks(w0, contents, run);
    SingleWriter(w0, contents, run, disk, m, p, n, q);
  }
}
