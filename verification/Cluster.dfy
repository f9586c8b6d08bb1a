/**
 Controller and nodes together, driven by an orchestrator that follows the staged volume
 lifecycle (CSI specification v1.11.0, "Volume Lifecycle", Figure 6): a volume is staged or
 published on a node only after its controller publish to that node succeeded, and it is
 controller-unpublished only after all its paths on the node have been given up. Controller
 and node calls are all in flight together, one step at a time.
 */
module Cluster {
  import opened Outcomes
  import opened GoStrings
  import opened DiskName
  import opened Cloud
  import opened Attachment
  import opened Mounter
  import S = System
  import H = Handlers
  import N = Node
  import F = Fleet
  import Formatting

  /** `ready`: controller-published and not yet being unpublished. `inUse`: paths handed to a
      stage or publish call and not yet successfully given up. */
  datatype Orchestrator = Orchestrator(ready: set<(VolumeId, InstanceId)>, inUse: set<(VolumeId, InstanceId, Path)>)

  datatype Cluster = Cluster(sys: S.Sys, fleet: F.Fleet, co: Orchestrator)

  datatype Event = Control(event: S.Event) | OnNode(happens: F.Event)

  function Start(w: H.World, contents: map<VolumeId, Content>): Cluster {
    Cluster(S.Start(w), F.Fleet(map[], map[], contents, [], map[]), Orchestrator({}, {}))
  }

  predicate UnderDev(path: Path) {
    HasPrefix(path, "/dev/")
  }

  /** What udev may show on the node when a call for the volume runs a command: links and device files under
      /dev, and, if the volume is attached there, a by-id link of its name, if any, to a disk attached under
      that name. Links of other volumes may be stale. */
  ghost predicate ShowsVolume(c: CloudState, id: VolumeId, node: InstanceId, d: Devices) {
    && (forall path :: path in d.links || path in d.files ==> UnderDev(path))
    && d.links.Keys !! d.files.Keys
    && (Attached(c, id, node) ==>
          forall disk :: DiskAt(d, ByIdPath(id)) == Some(disk) ==> disk in LinkTargets(c, node, ByIdPath(id)))
  }

  /** The device file of an attached disk stays. */
  ghost predicate KeepsFiles(c: CloudState, node: InstanceId, before: Devices, after: Devices) {
    forall file :: file in before.files && Attached(c, before.files[file], node) ==>
      file in after.files && after.files[file] == before.files[file]
  }

  // ---------- the orchestrator's rules ----------

  type Use = (VolumeId, InstanceId, Path)

  function UseOf(node: InstanceId, call: N.NodeCall): Use {
    (call.id, node, N.TargetOf(call))
  }

  predicate UsesPaths(co: Orchestrator, id: VolumeId, node: InstanceId) {
    exists use :: use in co.inUse && use.0 == id && use.1 == node
  }

  predicate PathFree(co: Orchestrator, use: Use) {
    forall other :: other in co.inUse && other.1 == use.1 && other.2 == use.2 ==> other == use
  }

  predicate AllowsControl(co: Orchestrator, e: S.Event) {
    e.Begin? && e.call.Unpublish? ==> !UsesPaths(co, e.call.id, e.call.node)
  }

  predicate AllowsCall(co: Orchestrator, node: InstanceId, call: N.NodeCall) {
    && PathFree(co, UseOf(node, call)) && !UnderDev(N.TargetOf(call))
    && (call.Stage? || call.Publish? ==> (call.id, node) in co.ready)
    && (call.Publish? ==> (call.id, node, call.staging) in co.inUse)
  }

  /** A node goes down only as an instance of the cloud. */
  ghost predicate AllowsOnNode(c: Cluster, e: F.Event) {
    match e
    case Begin(_, node, call, _) => AllowsCall(c.co, node, call)
    case Advance(k) =>
      F.Running(c.fleet, k) && Mounting(c.fleet.tasks[k].call) ==>
        var t := c.fleet.tasks[k];
        ShowsVolume(c.sys.world.cloud, t.call.id, t.node, F.DevicesOn(c.fleet, t.node))
    case Udev(node, devices) => KeepsFiles(c.sys.world.cloud, node, F.DevicesOn(c.fleet, node), devices)
    case Down(_) => false
    case Killed(_) => true
    case Stutter => true
  }

  // ---------- steps ----------

  predicate Reports(before: S.Sys, e: S.Event) {
    e.Advance? && e.k in before.procs && before.procs[e.k].call.Publish? && !before.procs[e.k].pc.Finished?
  }

  /** The orchestrator's view after a controller event. */
  function AfterControl(co: Orchestrator, e: S.Event, before: S.Sys, after: S.Sys): Orchestrator {
    match e
    case Begin(k, call, o) =>
      if call.Unpublish? then co.(ready := co.ready - {(call.id, call.node)}) else co
    case Advance(k) =>
      if Reports(before, e) && k in after.procs && after.procs[k].pc.Finished? && after.procs[k].pc.reply.Published?
      then co.(ready := co.ready + {(before.procs[k].call.id, before.procs[k].call.node)})
      else co
    case InstanceDown(instance) =>
      Orchestrator(set p | p in co.ready && p.1 != instance, set use | use in co.inUse && use.1 != instance)
    case OutsideResize(_, _) => co
  }

  predicate Mounting(call: N.NodeCall) {
    call.Stage? || call.Publish?
  }

  /** The orchestrator's view after a node event: a path is in use from the moment it is handed out. */
  function AfterNode(co: Orchestrator, e: F.Event, before: F.Fleet, after: F.Fleet): Orchestrator {
    match e
    case Begin(k, node, call, _) =>
      if k !in before.tasks && k in after.tasks && Mounting(call) then co.(inUse := co.inUse + {UseOf(node, call)})
      else co
    case Advance(k) =>
      if F.Running(before, k) && k in after.tasks && after.tasks[k].pc == N.Ended(N.Succeeded)
         && !Mounting(before.tasks[k].call)
      then co.(inUse := co.inUse - {UseOf(before.tasks[k].node, before.tasks[k].call)})
      else co
    case _ => co
  }

  /** What an event is to the nodes; one against the rules is nothing to them. */
  ghost function ToFleet(c: Cluster, e: Event): F.Event {
    match e
    case Control(event) =>
      if AllowsControl(c.co, event) && event.InstanceDown? then F.Down(event.instance) else F.Stutter
    case OnNode(happens) => if AllowsOnNode(c, happens) then happens else F.Stutter
  }

  /** An event against the rules, or not possible, does nothing. */
  ghost function Next(c: Cluster, e: Event): Cluster {
    var fleet := F.Next(c.fleet, ToFleet(c, e));
    match e
    case Control(event) =>
      if !AllowsControl(c.co, event) then c
      else
        var sys := S.Next(c.sys, event);
        Cluster(sys, fleet, AfterControl(c.co, event, c.sys, sys))
    case OnNode(happens) => c.(fleet := fleet, co := AfterNode(c.co, ToFleet(c, e), c.fleet, fleet))
  }

  ghost function Exec(c: Cluster, run: seq<Event>): Cluster {
    if run == [] then c else Next(Exec(c, run[..|run| - 1]), run[|run| - 1])
  }

  /** The cluster after the first n events of the run. */
  ghost function At(c: Cluster, run: seq<Event>, n: nat): Cluster
    requires n <= |run|
  {
    Exec(c, run[..n])
  }

  lemma AtNext(c: Cluster, run: seq<Event>, n: nat)
    requires n < |run|
    ensures At(c, run, n + 1) == Next(At(c, run, n), run[n])
  {
    assert run[..n + 1][..n] == run[..n];
  }

  /** No other disk on the instance has the device name of a volume that is ready there. */
  ghost predicate Distinct(c: Cluster) {
    forall p :: p in c.co.ready && Attached(c.sys.world.cloud, p.0, p.1) ==> DistinctDevice(c.sys.world.cloud, p.0, p.1)
  }

  ghost predicate AlwaysDistinct(c: Cluster, run: seq<Event>) {
    forall n :: 0 <= n <= |run| ==> Distinct(At(c, run, n))
  }

  /** The volumes that the run publishes. */
  function Published(run: seq<Event>): set<VolumeId> {
    set e | e in run && e.Control? && e.event.Begin? && e.event.call.Publish? :: e.event.call.id
  }

  /** Each of the volumes is attached at most once, and only under the name derived from its id; the disk
      table may hold any other disks. */
  ghost predicate Managed(c: CloudState, volumes: set<VolumeId>) {
    forall id :: id in volumes ==> SingleDisk(c, id) && forall n :: Attached(c, id, n) ==> Ours(c, id, n)
  }

  /** The node has a mount on this path that shows the disk. */
  predicate Shows(c: Cluster, node: InstanceId, path: Path, disk: VolumeId) {
    exists i :: 0 <= i < |MountsAt(F.HostOn(c.fleet, node), path)|
                && MountsAt(F.HostOn(c.fleet, node), path)[i].backing == OnDisk(disk)
  }

  // ---------- the invariant ----------

  /** What is ready is attached, and nobody is detaching it. */
  ghost predicate ReadyAttached(sys: S.Sys, co: Orchestrator) {
    && (forall p :: p in co.ready ==> Attached(sys.world.cloud, p.0, p.1))
    && (forall k :: k in sys.procs && sys.procs[k].call.Unpublish? && !sys.procs[k].pc.Finished? ==>
          (sys.procs[k].call.id, sys.procs[k].call.node) !in co.ready)
  }

  /** Paths are in use by one volume at a time, for volumes that are ready, and outside /dev. */
  ghost predicate PathsOrderly(co: Orchestrator) {
    && (forall use :: use in co.inUse ==> (use.0, use.1) in co.ready && !UnderDev(use.2))
    && (forall use, other ::
          use in co.inUse && other in co.inUse && use.1 == other.1 && use.2 == other.2 ==> use == other)
  }

  /** Only these volumes are published. */
  ghost predicate Confined(sys: S.Sys, co: Orchestrator, volumes: set<VolumeId>) {
    && Managed(sys.world.cloud, volumes)
    && (forall k :: k in sys.procs && sys.procs[k].call.Publish? ==> sys.procs[k].call.id in volumes)
    && (forall p :: p in co.ready ==> p.0 in volumes)
  }

  /** What a call in flight can rely on. */
  ghost predicate TaskOrderly(f: F.Fleet, co: Orchestrator, t: F.Task) {
    t.pc.Ended? ||
    (&& PathFree(co, UseOf(t.node, t.call))
     && (Mounting(t.call) ==> UseOf(t.node, t.call) in co.inUse)
     && (t.call.Publish? ==> (t.call.id, t.node, t.call.staging) in co.inUse)
     && ((t.pc.Mounting? || t.pc.Checking?) && FromDevice(t.call) ==>
           t.pc.source in F.DevicesOn(f, t.node).files && F.DevicesOn(f, t.node).files[t.pc.source] == t.call.id))
  }

  /** The call mounts a device file. */
  predicate FromDevice(call: N.NodeCall) {
    call.Publish? && call.capability.Some? && call.capability.value.access == H.Block
  }

  ghost predicate FleetOrderly(f: F.Fleet, co: Orchestrator) {
    && F.Disciplined(f) && PathsOrderly(co)
    && (forall k :: k in f.tasks ==> TaskOrderly(f, co, f.tasks[k]))
  }

  ghost predicate Orderly(c: Cluster, volumes: set<VolumeId>) {
    && S.Disciplined(c.sys) && Attachable(c.sys) && ReadyAttached(c.sys, c.co) && Confined(c.sys, c.co, volumes)
    && FleetOrderly(c.fleet, c.co)
  }

  // ---------- controller events ----------

  lemma StepKeepsAttached(w: H.World, p: S.Proc, id: VolumeId, node: InstanceId)
    requires Sound(w.cloud) && H.Fits(p.call, p.pc) && !p.pc.Finished?
    requires Attached(w.cloud, id, node) && !(p.call.Unpublish? && p.call.id == id && p.call.node == node)
    ensures Attached(H.Step(w, p.call, p.oracle, p.pc).0.cloud, id, node)
  {
  }

  lemma AdvanceKeepsReady(sys: S.Sys, co: Orchestrator, k: nat)
    requires S.Disciplined(sys) && Attachable(sys) && ReadyAttached(sys, co) && S.InFlight(sys, k)
    ensures var sys' := S.Next(sys, S.Advance(k)); ReadyAttached(sys', AfterControl(co, S.Advance(k), sys, sys'))
  {
    var p := sys.procs[k];
    var sys' := S.Next(sys, S.Advance(k));
    var co' := AfterControl(co, S.Advance(k), sys, sys');
    forall r | r in co.ready ensures Attached(sys'.world.cloud, r.0, r.1) {
      StepKeepsAttached(sys.world, p, r.0, r.1);
    }
    if co' != co {
      PublishedMeansAttached(sys.world, p);
      hide H.Step, Attachable;
      forall j | j in sys.procs && j != k && S.InFlight(sys, j) && sys.procs[j].call.Unpublish?
        ensures sys.procs[j].call.id != p.call.id
      {
        assert S.KeyOf(sys.procs[j].call) != S.KeyOf(p.call);
      }
    }
  }

  lemma ControlKeepsReady(sys: S.Sys, co: Orchestrator, e: S.Event)
    requires S.Disciplined(sys) && Attachable(sys) && ReadyAttached(sys, co) && AllowsControl(co, e)
    ensures var sys' := S.Next(sys, e); ReadyAttached(sys', AfterControl(co, e, sys, sys'))
  {
    if e.Advance? && S.InFlight(sys, e.k) {
      AdvanceKeepsReady(sys, co, e.k);
    }
  }

  lemma ControlKeepsFleet(f: F.Fleet, sys: S.Sys, sys': S.Sys, co: Orchestrator, e: S.Event)
    requires FleetOrderly(f, co) && AllowsControl(co, e) && !e.InstanceDown?
    ensures FleetOrderly(f, AfterControl(co, e, sys, sys'))
  {
    var co' := AfterControl(co, e, sys, sys');
    assert co'.inUse == co.inUse;
    if e.Begin? && e.call.Unpublish? {
      forall use | use in co.inUse ensures (use.0, use.1) in co'.ready {
        assert use.0 != e.call.id || use.1 != e.call.node;
      }
    }
    hide AfterControl, F.Disciplined;
    forall k | k in f.tasks ensures TaskOrderly(f, co', f.tasks[k]) { SameUses(f, co, co', f.tasks[k]); }
  }

  lemma SameUses(f: F.Fleet, co: Orchestrator, co': Orchestrator, t: F.Task)
    requires TaskOrderly(f, co, t) && co'.inUse == co.inUse
    ensures TaskOrderly(f, co', t)
  {
  }

  lemma InstanceDownKeepsFleet(f: F.Fleet, sys: S.Sys, sys': S.Sys, co: Orchestrator, instance: InstanceId)
    requires FleetOrderly(f, co)
    ensures FleetOrderly(F.WithoutNode(f, instance), AfterControl(co, S.InstanceDown(instance), sys, sys'))
  {
    var f' := F.WithoutNode(f, instance);
    var co' := AfterControl(co, S.InstanceDown(instance), sys, sys');
    F.NextKeepsDiscipline(f, F.Down(instance));
    hide F.Disciplined;
    forall k | k in f'.tasks ensures TaskOrderly(f', co', f'.tasks[k]) {
      if f.tasks[k].node != instance {
        DownSparesTask(f, f', co, co', f.tasks[k], instance);
      }
    }
  }

  lemma DownSparesTask(f: F.Fleet, f': F.Fleet, co: Orchestrator, co': Orchestrator, t: F.Task, instance: InstanceId)
    requires TaskOrderly(f, co, t) && t.node != instance
    requires forall use :: use in co'.inUse <==> use in co.inUse && use.1 != instance
    requires f'.mounts == f.mounts - {instance} && f'.devices == f.devices - {instance}
    ensures TaskOrderly(f', co', t)
  {
  }

  lemma MovesKeepManaged(c: CloudState, c': CloudState, volumes: set<VolumeId>)
    requires Moves(c, c') && Managed(c, volumes)
    ensures Managed(c', volumes)
  {
    forall id | id in volumes ensures SingleDisk(c', id) && forall n :: Attached(c', id, n) ==> Ours(c', id, n) {
      MovesKeepSingle(c, c', id);
      forall n | Attached(c', id, n) ensures Ours(c', id, n) {
        assert Stays(c, c', id, n) || Arrives(c, c', id, n);
      }
    }
  }

  lemma ControlKeepsConfined(sys: S.Sys, co: Orchestrator, e: S.Event, volumes: set<VolumeId>)
    requires Confined(sys, co, volumes) && S.Disciplined(sys) && Attachable(sys)
    requires e.Begin? && e.call.Publish? ==> e.call.id in volumes
    ensures var sys' := S.Next(sys, e); Confined(sys', AfterControl(co, e, sys, sys'), volumes)
  {
    NextMoves(sys, e);
    MovesKeepManaged(sys.world.cloud, S.Next(sys, e).world.cloud, volumes);
    hide Managed, Moves, H.Step, Attachable, S.Disciplined, S.Changed;
  }

  lemma ControlKeepsOrder(c: Cluster, e: S.Event, volumes: set<VolumeId>)
    requires Orderly(c, volumes) && (e.Begin? && e.call.Publish? ==> e.call.id in volumes)
    ensures Orderly(Next(c, Control(e)), volumes)
  {
    if AllowsControl(c.co, e) {
      var sys := S.Next(c.sys, e);
      ControlKeepsReady(c.sys, c.co, e);
      ControlKeepsConfined(c.sys, c.co, e, volumes);
      S.NextKeepsDiscipline(c.sys, e);
      NextMoves(c.sys, e);
      hide S.Next, S.Disciplined, Attachable, ReadyAttached, FleetOrderly, AllowsControl, Confined, Moves;
      if e.InstanceDown? {
        InstanceDownKeepsFleet(c.fleet, c.sys, sys, c.co, e.instance);
      } else {
        ControlKeepsFleet(c.fleet, c.sys, sys, c.co, e);
      }
    } else {
      hide AllowsControl, Orderly;
    }
  }

  // ---------- devices ----------

  /** A path outside /dev is no device. */
  lemma OrdinaryPath(c: CloudState, id: VolumeId, node: InstanceId, d: Devices, path: Path)
    requires ShowsVolume(c, id, node, d) && !UnderDev(path)
    ensures DiskAt(d, path) == None
  {
  }

  lemma ByIdPathsUnderDev(id: VolumeId)
    ensures UnderDev(ByIdPath(id))
  {
  }

  /** The by-id path of an attached volume leads to that volume, or nowhere. */
  lemma OwnDevice(c: CloudState, node: InstanceId, d: Devices, id: VolumeId)
    requires ShowsVolume(c, id, node, d) && Ours(c, id, node) && DistinctDevice(c, id, node)
    ensures DiskAt(d, ByIdPath(id)) in {None, Some(id)}
  {
    LinkResolves(c, node, id);
  }

  lemma OwnDeviceFile(c: CloudState, node: InstanceId, d: Devices, id: VolumeId)
    requires ShowsVolume(c, id, node, d) && DiskAt(d, ByIdPath(id)) in {None, Some(id)} && N.DeviceFile(d, id).Some?
    ensures var file := N.DeviceFile(d, id).value; file in d.files && d.files[file] == id
  {
  }

  lemma OwnFile(c: CloudState, node: InstanceId, d: Devices, file: Path, id: VolumeId)
    requires ShowsVolume(c, id, node, d) && file in d.files && d.files[file] == id
    ensures DiskAt(d, file) == Some(id)
  {
  }

  // ---------- one command of a node call ----------

  /** What a mounting call can rely on from the controller's side while it runs a command. */
  ghost predicate Served(cloud: CloudState, f: F.Fleet, co: Orchestrator, t: F.Task) {
    Mounting(t.call) ==>
      && ShowsVolume(cloud, t.call.id, t.node, F.DevicesOn(f, t.node))
      && (forall p :: p in co.ready ==> Ours(cloud, p.0, p.1) && DistinctDevice(cloud, p.0, p.1))
  }

  lemma AllowedMeansServed(c: Cluster, k: nat, volumes: set<VolumeId>)
    requires Orderly(c, volumes) && Distinct(c) && AllowsOnNode(c, F.Advance(k)) && F.Running(c.fleet, k)
    ensures Served(c.sys.world.cloud, c.fleet, c.co, c.fleet.tasks[k])
  {
  }

  lemma OwnLink(cloud: CloudState, f: F.Fleet, co: Orchestrator, t: F.Task)
    requires Served(cloud, f, co, t) && PathsOrderly(co) && TaskOrderly(f, co, t) && !t.pc.Ended? && Mounting(t.call)
    ensures DiskAt(F.DevicesOn(f, t.node), ByIdPath(t.call.id)) in {None, Some(t.call.id)}
  {
    assert UseOf(t.node, t.call) in co.inUse;
    OwnDevice(cloud, t.node, F.DevicesOn(f, t.node), t.call.id);
  }

  /** The path is given up. */
  predicate GivesUp(t: F.Task, pc: N.NodePc) {
    pc == N.Ended(N.Succeeded) && !Mounting(t.call)
  }

  function AfterStep(co: Orchestrator, t: F.Task, pc: N.NodePc): Orchestrator {
    if GivesUp(t, pc) then co.(inUse := co.inUse - {UseOf(t.node, t.call)}) else co
  }

  /** The call itself, one command later. */
  lemma OwnTaskAfter(cloud: CloudState, f: F.Fleet, co: Orchestrator, k: nat)
    requires FleetOrderly(f, co) && F.Running(f, k) && Served(cloud, f, co, f.tasks[k])
    ensures var f' := F.AdvanceTask(f, k);
            TaskOrderly(f', AfterStep(co, f.tasks[k], f'.tasks[k].pc), f'.tasks[k])
  {
    var t := f.tasks[k];
    assert TaskOrderly(f, co, t);
    if t.pc.Resolving? {
      OwnLink(cloud, f, co, t);
      if N.DeviceFile(F.DevicesOn(f, t.node), t.call.id).Some? {
        OwnDeviceFile(cloud, t.node, F.DevicesOn(f, t.node), t.call.id);
      }
    }
    hide FleetOrderly, Served;
  }

  /** The other calls in flight. */
  lemma OtherTaskAfter(f: F.Fleet, co: Orchestrator, k: nat, j: nat)
    requires FleetOrderly(f, co) && F.Running(f, k) && j in f.tasks && j != k
    ensures var f' := F.AdvanceTask(f, k);
            TaskOrderly(f', AfterStep(co, f.tasks[k], f'.tasks[k].pc), f'.tasks[j])
  {
    var t, u, f' := f.tasks[k], f.tasks[j], F.AdvanceTask(f, k);
    assert TaskOrderly(f, co, u);
    if !u.pc.Ended? {
      assert !F.Clash(t.node, t.call, u.node, u.call);
    }
    hide FleetOrderly, N.Step;
  }

  lemma AdvanceKeepsFleet(cloud: CloudState, f: F.Fleet, co: Orchestrator, k: nat)
    requires FleetOrderly(f, co) && F.Running(f, k) && Served(cloud, f, co, f.tasks[k])
    ensures FleetOrderly(F.AdvanceTask(f, k), AfterStep(co, f.tasks[k], F.AdvanceTask(f, k).tasks[k].pc))
  {
    var t, f' := f.tasks[k], F.AdvanceTask(f, k);
    var co' := AfterStep(co, t, f'.tasks[k].pc);
    forall j | j in f.tasks ensures TaskOrderly(f', co', f'.tasks[j]) {
      if j == k { OwnTaskAfter(cloud, f, co, k); } else { OtherTaskAfter(f, co, k, j); }
    }
    F.NextKeepsDiscipline(f, F.Advance(k));
  }

  // ---------- the other node events ----------

  lemma BeginKeepsFleet(f: F.Fleet, co: Orchestrator, e: F.Event)
    requires FleetOrderly(f, co) && e.Begin? && AllowsCall(co, e.node, e.call)
    ensures FleetOrderly(F.Next(f, e), AfterNode(co, e, f, F.Next(f, e)))
  {
    var f' := F.Next(f, e);
    var co' := AfterNode(co, e, f, f');
    if f' != f {
      var use := UseOf(e.node, e.call);
      F.NextKeepsDiscipline(f, e);
      forall j | j in f'.tasks ensures TaskOrderly(f', co', f'.tasks[j]) {
        if j == e.k { NewTaskOrderly(f', co, e); } else { BeginSparesTask(f, co, e, j); }
      }
      assert PathsOrderly(co');
    } else {
      assert co' == co;
    }
  }

  lemma NewTaskOrderly(f: F.Fleet, co: Orchestrator, e: F.Event)
    requires e.Begin? && e.call.Admissible() && AllowsCall(co, e.node, e.call)
    ensures var use := UseOf(e.node, e.call);
            var t := F.Task(e.node, e.call, e.commands, N.Entry(e.call));
            TaskOrderly(f, if Mounting(e.call) then co.(inUse := co.inUse + {use}) else co, t)
  {
  }

  lemma BeginSparesTask(f: F.Fleet, co: Orchestrator, e: F.Event, j: nat)
    requires FleetOrderly(f, co) && e.Begin? && e.k !in f.tasks && F.Free(f, e.node, e.call) && j in f.tasks
    requires e.call.Admissible()
    ensures var use := UseOf(e.node, e.call);
            var f' := f.(tasks := f.tasks[e.k := F.Task(e.node, e.call, e.commands, N.Entry(e.call))]);
            TaskOrderly(f', co, f.tasks[j]) && TaskOrderly(f', co.(inUse := co.inUse + {use}), f.tasks[j])
  {
    assert TaskOrderly(f, co, f.tasks[j]);
    assert F.Running(f, j) ==> !F.Clash(e.node, e.call, f.tasks[j].node, f.tasks[j].call);
    hide FleetOrderly, F.Free;
  }

  lemma KilledKeepsFleet(f: F.Fleet, co: Orchestrator, k: nat)
    requires FleetOrderly(f, co)
    ensures FleetOrderly(F.Next(f, F.Killed(k)), co)
  {
    var f' := F.Next(f, F.Killed(k));
    F.NextKeepsDiscipline(f, F.Killed(k));
    forall j | j in f'.tasks ensures TaskOrderly(f', co, f'.tasks[j]) {
      assert TaskOrderly(f, co, f.tasks[j]);
    }
  }

  /** A change of devices that keeps the files of attached disks. */
  lemma UdevKeepsFleet(sys: S.Sys, f: F.Fleet, co: Orchestrator, node: InstanceId, devices: Devices)
    requires FleetOrderly(f, co) && ReadyAttached(sys, co)
    requires KeepsFiles(sys.world.cloud, node, F.DevicesOn(f, node), devices)
    ensures FleetOrderly(f.(devices := f.devices[node := devices]), co)
  {
    var f' := f.(devices := f.devices[node := devices]);
    F.NextKeepsDiscipline(f, F.Udev(node, devices));
    forall j | j in f'.tasks ensures TaskOrderly(f', co, f'.tasks[j]) {
      assert TaskOrderly(f, co, f.tasks[j]);
      UdevSparesTask(sys, f, co, node, devices, f.tasks[j]);
    }
  }

  lemma UdevSparesTask(sys: S.Sys, f: F.Fleet, co: Orchestrator, node: InstanceId, devices: Devices, t: F.Task)
    requires TaskOrderly(f, co, t) && PathsOrderly(co) && ReadyAttached(sys, co)
    requires KeepsFiles(sys.world.cloud, node, F.DevicesOn(f, node), devices)
    ensures TaskOrderly(f.(devices := f.devices[node := devices]), co, t)
  {
    if t.node == node && !t.pc.Ended? && FromDevice(t.call) {
      assert UseOf(t.node, t.call) in co.inUse;
    }
  }

  lemma NodeKeepsOrder(c: Cluster, e: F.Event, volumes: set<VolumeId>)
    requires Orderly(c, volumes) && Distinct(c)
    ensures Orderly(Next(c, OnNode(e)), volumes)
  {
    if AllowsOnNode(c, e) {
      match e
      case Begin(_, _, _, _) => BeginKeepsFleet(c.fleet, c.co, e);
      case Advance(k) =>
        if F.Running(c.fleet, k) {
          AllowedMeansServed(c, k, volumes);
          AdvanceKeepsFleet(c.sys.world.cloud, c.fleet, c.co, k);
        }
      case Udev(node, devices) => UdevKeepsFleet(c.sys, c.fleet, c.co, node, devices);
      case Killed(k) => KilledKeepsFleet(c.fleet, c.co, k);
      case _ =>
    }
    UsesDoNotMatter(c.sys, c.co, Next(c, OnNode(e)).co, volumes);
    hide ReadyAttached, Confined, FleetOrderly, S.Disciplined, Attachable;
  }

  lemma UsesDoNotMatter(sys: S.Sys, co: Orchestrator, co': Orchestrator, volumes: set<VolumeId>)
    requires ReadyAttached(sys, co) && Confined(sys, co, volumes) && co'.ready == co.ready
    ensures ReadyAttached(sys, co') && Confined(sys, co', volumes)
  {
  }

  // ---------- every run ----------

  /** What the orchestrator believes, and what a call in flight relies on, is true in every run, whatever
      the commands do. */
  lemma {:induction false} RunsStayOrderly(w0: H.World, contents: map<VolumeId, Content>, run: seq<Event>, n: nat)
    requires Sound(w0.cloud) && Managed(w0.cloud, Published(run))
    requires AlwaysDistinct(Start(w0, contents), run) && n <= |run|
    ensures Orderly(At(Start(w0, contents), run, n), Published(run))
  {
    if n > 0 {
      RunsStayOrderly(w0, contents, run, n - 1);
      AtNext(Start(w0, contents), run, n - 1);
      var c, e := At(Start(w0, contents), run, n - 1), run[n - 1];
      assert Distinct(c);
      assert e.Control? && e.event.Begin? && e.event.call.Publish? ==> e.event.call.id in Published(run);
      hide Orderly, Next, Exec, AlwaysDistinct, Distinct, Published;
      match e
      case Control(event) => ControlKeepsOrder(c, event, Published(run));
      case OnNode(happens) => NodeKeepsOrder(c, happens, Published(run));
    }
  }

  // ---------- the nodes' part of a run ----------

  /** The run as the nodes go through it. */
  ghost function FleetRun(c: Cluster, run: seq<Event>): (r: seq<F.Event>)
    ensures |r| == |run|
  {
    seq(|run|, i requires 0 <= i < |run| => ToFleet(At(c, run, i), run[i]))
  }

  /** A run of the cluster is a run of its nodes, so what holds over every run of nodes holds here. */
  lemma {:induction false} FleetFollows(c: Cluster, run: seq<Event>, n: nat)
    requires n <= |run|
    ensures F.At(c.fleet, FleetRun(c, run), n) == At(c, run, n).fleet
  {
    if n > 0 {
      FleetFollows(c, run, n - 1);
      AtNext(c, run, n - 1);
      F.AtNext(c.fleet, FleetRun(c, run), n - 1);
      hide F.Next, ToFleet, F.Exec;
    }
  }

  /** While a stage or publish runs a command, its by-id path leads to its own volume or nowhere. */
  lemma OwnDiskAt(w0: H.World, contents: map<VolumeId, Content>, run: seq<Event>, n: nat, k: nat)
    requires Sound(w0.cloud) && Managed(w0.cloud, Published(run)) && AlwaysDistinct(Start(w0, contents), run)
    requires n < |run| && FleetRun(Start(w0, contents), run)[n] == F.Advance(k)
    requires var f := At(Start(w0, contents), run, n).fleet; F.Running(f, k) && Mounting(f.tasks[k].call)
    ensures var f := At(Start(w0, contents), run, n).fleet;
            && F.Disciplined(f)
            && Formatting.DiskOf(f, f.tasks[k]) in {None, Some(f.tasks[k].call.id)}
  {
    var c := At(Start(w0, contents), run, n);
    RunsStayOrderly(w0, contents, run, n);
    assert AllowsOnNode(c, F.Advance(k));
    assert Distinct(c);
    hide At, AlwaysDistinct, Managed;
    AllowedMeansServed(c, k, Published(run));
    OwnLink(c.sys.world.cloud, c.fleet, c.co, c.fleet.tasks[k]);
  }
}
