/** A run of the whole cluster in which one blind findmnt leaves a volume mounted on two nodes. */
module TwoWriters {
  import opened Outcomes
  import opened GoStrings
  import opened DiskName
  import opened Cloud
  import opened Mounter
  import opened Cluster
  import opened Tracking
  import Attachment
  import S = System
  import H = Handlers
  import N = Node
  import F = Fleet
  import NodeSafety
  import Answers
  import ResizeLock

  /** How many findmnts of the run are blind. */
  ghost function Unsighted(c: Cluster, run: seq<Event>): nat {
    if run == [] then 0
    else
      var before, e := run[..|run| - 1], run[|run| - 1];
      Unsighted(c, before) + if Sighted(Exec(c, before), e) then 0 else 1
  }

  lemma {:induction false} ExecConcat(c: Cluster, run: seq<Event>, more: seq<Event>)
    ensures Exec(c, run + more) == Exec(Exec(c, run), more)
    ensures Unsighted(c, run + more) == Unsighted(c, run) + Unsighted(Exec(c, run), more)
  {
    if more == [] {
      assert run + more == run;
    } else {
      var last := |more| - 1;
      assert (run + more)[..|run + more| - 1] == run + more[..last];
      ExecConcat(c, run, more[..last]);
      hide Next, Sighted;
    }
  }

  lemma ExecOne(c: Cluster, e: Event)
    ensures Exec(c, [e]) == Next(c, e) && Unsighted(c, [e]) == if Sighted(c, e) then 0 else 1
  {
    assert [e][..0] == [];
  }

  // ---------- a controller call, alone ----------

  /** What the orchestrator makes of the reply. */
  function Informed(co: Orchestrator, call: H.Call, reply: H.Reply): Orchestrator {
    if call.Publish? && reply.Published? then co.(ready := co.ready + {(call.id, call.node)}) else co
  }

  /** Nothing but this call moves until it has returned. */
  lemma {:induction false} ControlRunsOn(c: Cluster, k: nat) returns (run: seq<Event>)
    requires k in c.sys.procs && H.Fits(c.sys.procs[k].call, c.sys.procs[k].pc) && !c.sys.procs[k].pc.Finished?
    ensures var p := c.sys.procs[k];
            var (w, reply) := H.RunFrom(c.sys.world, p.call, p.oracle, p.pc);
            var c' := Exec(c, run);
            && c'.sys.world == w && c'.sys.procs == c.sys.procs[k := p.(pc := H.Finished(reply))]
            && c'.fleet == c.fleet && c'.co == Informed(c.co, p.call, reply) && Unsighted(c, run) == 0
    decreases H.Remaining(c.sys.procs[k].pc)
  {
    var e := Control(S.Advance(k));
    var c1, p := Next(c, e), c.sys.procs[k];
    ExecOne(c, e);
    OneStep(c, k);
    var pc1 := c1.sys.procs[k].pc;
    H.Unfold(c.sys.world, p.call, p.oracle, p.pc);
    hide Next, Exec, H.Step, H.Fits, Unsighted;
    if pc1.Finished? {
      run := [e];
      H.Unfold(c1.sys.world, p.call, p.oracle, pc1);
    } else {
      var rest := ControlRunsOn(c1, k);
      run := [e] + rest;
      ExecConcat(c, [e], rest);
    }
  }

  lemma OneStep(c: Cluster, k: nat)
    requires k in c.sys.procs && H.Fits(c.sys.procs[k].call, c.sys.procs[k].pc) && !c.sys.procs[k].pc.Finished?
    ensures var p, c' := c.sys.procs[k], Next(c, Control(S.Advance(k)));
            var (w, pc) := H.Step(c.sys.world, p.call, p.oracle, p.pc);
            && H.Fits(p.call, pc)
            && c'.sys.world == w && c'.sys.procs == c.sys.procs[k := p.(pc := pc)] && c'.fleet == c.fleet
            && c'.co == if pc.Finished? then Informed(c.co, p.call, pc.reply) else c.co
  {
  }

  /** Every controller call has returned, and every node call has ended; k is the next free number. */
  predicate AtRest(c: Cluster, k: nat) {
    && (forall j :: j in c.sys.procs ==> j < k && c.sys.procs[j].pc.Finished?)
    && (forall j :: j in c.fleet.tasks ==> j < k && c.fleet.tasks[j].pc.Ended?)
  }

  lemma ControlCall(c: Cluster, k: nat, call: H.Call) returns (run: seq<Event>)
    requires AtRest(c, k) && !H.Entry(call).Finished? && (call.Unpublish? ==> !UsesPaths(c.co, call.id, call.node))
    ensures var (w, reply) := H.Solo(c.sys.world, call, H.FaultFree([]));
            var c' := Exec(c, run);
            && AtRest(c', k + 1) && c'.sys.world == w && c'.fleet == c.fleet && Unsighted(c, run) == 0
            && c'.co == Informed(if call.Unpublish? then c.co.(ready := c.co.ready - {(call.id, call.node)}) else c.co,
                                 call, reply)
  {
    var e := Control(S.Begin(k, call, H.FaultFree([])));
    var c1 := Next(c, e);
    ExecOne(c, e);
    assert c1.sys.world == c.sys.world && c1.fleet == c.fleet;
    assert c1.sys.procs == c.sys.procs[k := S.Proc(call, H.FaultFree([]), H.Entry(call))];
    assert c1.co == if call.Unpublish? then c.co.(ready := c.co.ready - {(call.id, call.node)}) else c.co;
    assert H.Fits(call, H.Entry(call));
    hide Next, Exec, H.RunFrom, Informed, H.Entry, H.Fits, UsesPaths, Unsighted;
    var rest := ControlRunsOn(c1, k);
    run := [e] + rest;
    ExecConcat(c, [e], rest);
  }

  // ---------- a node call, alone ----------

  function Steady(d: Devices): N.Sights {
    N.Sights(d, d, d, d)
  }

  /** From c to c' call k of a node has run to its end, with this host and reply. */
  ghost predicate NodeRan(c: Cluster, c': Cluster, k: nat, h: Host, reply: N.NodeReply)
    requires k in c.fleet.tasks
  {
    var t := c.fleet.tasks[k];
    && c'.sys == c.sys && c'.fleet.devices == c.fleet.devices
    && c'.fleet.contents == h.contents && c'.fleet.mounts == c.fleet.mounts[t.node := h.mounts]
    && c'.fleet.tasks == c.fleet.tasks[k := t.(pc := N.Ended(reply))]
    && c'.co == AfterStep(c.co, t, N.Ended(reply))
  }

  /** From c to c1 it has run one command. */
  ghost predicate NodeStepped(c: Cluster, c1: Cluster, k: nat, h: Host, pc: N.NodePc)
    requires k in c.fleet.tasks
  {
    var t := c.fleet.tasks[k];
    && c1.sys == c.sys && c1.fleet.devices == c.fleet.devices && F.HostOn(c1.fleet, t.node) == h
    && c1.fleet.mounts == c.fleet.mounts[t.node := h.mounts]
    && c1.fleet.tasks == c.fleet.tasks[k := t.(pc := pc)]
    && c1.co == AfterStep(c.co, t, pc)
  }

  lemma SteppedThenRan(c: Cluster, c1: Cluster, c': Cluster, k: nat, h1: Host, pc: N.NodePc,
                       h: Host, reply: N.NodeReply)
    requires k in c.fleet.tasks && NodeStepped(c, c1, k, h1, pc) && !pc.Ended?
    requires NodeRan(c1, c', k, h, reply)
    ensures NodeRan(c, c', k, h, reply)
  {
  }

  /** The devices are such that the call may run its commands. */
  ghost predicate Serves(c: Cluster, t: F.Task, d: Devices) {
    Mounting(t.call) ==> ShowsVolume(c.sys.world.cloud, t.call.id, t.node, d)
  }

  lemma {:induction false} NodeRunsOn(c: Cluster, k: nat, d: Devices) returns (run: seq<Event>)
    requires F.Running(c.fleet, k) && N.Fits(c.fleet.tasks[k].call, c.fleet.tasks[k].pc)
    requires F.DevicesOn(c.fleet, c.fleet.tasks[k].node) == d && Serves(c, c.fleet.tasks[k], d)
    ensures var t := c.fleet.tasks[k];
            var (h, reply) := N.RunFrom(F.HostOn(c.fleet, t.node), t.call, t.commands, Steady(d), t.pc);
            NodeRan(c, Exec(c, run), k, h, reply)
    ensures c.fleet.tasks[k].commands.findmnt == Answers ==> Unsighted(c, run) == 0
    ensures var t := c.fleet.tasks[k];
            t.pc == N.CheckingOff && t.commands.findmnt == StaysSilent && F.PathMounts(c.fleet, t) != [] ==>
              Unsighted(c, run) == 1
    decreases N.Remaining(c.fleet.tasks[k].pc)
  {
    var e := OnNode(F.Advance(k));
    var c1, t := Next(c, e), c.fleet.tasks[k];
    var h := F.HostOn(c.fleet, t.node);
    var (h1, pc1) := N.Step(h, d, t.call, t.commands, t.pc);
    ExecOne(c, e);
    OneCommand(c, k);
    N.Unfold(h, t.call, t.commands, Steady(d), t.pc);
    N.Unfold(h1, t.call, t.commands, Steady(d), pc1);
    if pc1.Ended? {
      run := [e];
    } else {
      assert F.DevicesOn(c1.fleet, t.node) == d;
      hide Next, Exec, N.Step, N.Fits, Serves, NodeRan, AfterStep, F.DevicesOn, N.RunFrom, Unsighted;
      var rest := NodeRunsOn(c1, k, d);
      run := [e] + rest;
      ExecConcat(c, [e], rest);
      var (h2, reply) := N.RunFrom(h1, t.call, t.commands, Steady(d), pc1);
      SteppedThenRan(c, c1, Exec(c, run), k, h1, pc1, h2, reply);
    }
  }

  lemma OneCommand(c: Cluster, k: nat)
    requires F.Running(c.fleet, k) && N.Fits(c.fleet.tasks[k].call, c.fleet.tasks[k].pc)
    requires Serves(c, c.fleet.tasks[k], F.DevicesOn(c.fleet, c.fleet.tasks[k].node))
    ensures var t, c' := c.fleet.tasks[k], Next(c, OnNode(F.Advance(k)));
            var (h, pc) := N.Step(F.HostOn(c.fleet, t.node), F.DevicesOn(c.fleet, t.node), t.call, t.commands, t.pc);
            N.Fits(t.call, pc) && N.Remaining(pc) < N.Remaining(t.pc) && NodeStepped(c, c', k, h, pc)
  {
    hide N.Step, N.Fits, ShowsVolume;
  }

  lemma NodeCallAlone(c: Cluster, k: nat, node: InstanceId, call: N.NodeCall, commands: N.Commands)
    returns (run: seq<Event>)
    requires AtRest(c, k) && AllowsCall(c.co, node, call) && call.Admissible() && !N.Entry(call).Ended?
    requires Mounting(call) ==> ShowsVolume(c.sys.world.cloud, call.id, node, F.DevicesOn(c.fleet, node))
    ensures var (h, reply) := N.Perform(F.HostOn(c.fleet, node), call, commands, Steady(F.DevicesOn(c.fleet, node)));
            var c' := Exec(c, run);
            && AtRest(c', k + 1) && c'.sys == c.sys && c'.fleet.devices == c.fleet.devices
            && c'.fleet.contents == h.contents && c'.fleet.mounts == c.fleet.mounts[node := h.mounts]
            && c'.co.ready == c.co.ready
            && c'.co.inUse == if Mounting(call) then c.co.inUse + {UseOf(node, call)}
                              else if reply == N.Succeeded then c.co.inUse - {UseOf(node, call)} else c.co.inUse
    ensures commands.findmnt == Answers ==> Unsighted(c, run) == 0
    ensures var stack := MountsAt(F.HostOn(c.fleet, node), N.TargetOf(call));
            !Mounting(call) && commands.findmnt == StaysSilent && stack != [] ==> Unsighted(c, run) == 1
  {
    var e := OnNode(F.Begin(k, node, call, commands));
    var c1 := Next(c, e);
    ExecOne(c, e);
    BeginAlone(c, k, node, call, commands);
    hide Next, Exec, N.RunFrom, N.Entry, N.Fits, ShowsVolume, AllowsCall, Unsighted;
    var rest := NodeRunsOn(c1, k, F.DevicesOn(c.fleet, node));
    run := [e] + rest;
    ExecConcat(c, [e], rest);
  }

  lemma BeginAlone(c: Cluster, k: nat, node: InstanceId, call: N.NodeCall, commands: N.Commands)
    requires AtRest(c, k) && AllowsCall(c.co, node, call) && call.Admissible() && !N.Entry(call).Ended?
    ensures var c' := Next(c, OnNode(F.Begin(k, node, call, commands)));
            && c'.sys == c.sys
            && c'.fleet == c.fleet.(tasks := c.fleet.tasks[k := F.Task(node, call, commands, N.Entry(call))])
            && N.Fits(call, N.Entry(call))
            && c'.co == if Mounting(call) then c.co.(inUse := c.co.inUse + {UseOf(node, call)}) else c.co
  {
  }

  // ---------- the run ----------

  /** The one disk, its two nodes, and how the disk looks on either. */
  function WorldOf(id: VolumeId, nodes: set<InstanceId>, attachments: map<InstanceId, string>): H.World {
    H.World(CloudState(map[id := Disk("data", "network-ssd", "", 0x1_0000_0000, 4096, attachments)], {id}, nodes), {})
  }

  const FILE := "/dev/vdb"
  const STAGING := "/stage"

  function DevicesFor(id: VolumeId): Devices {
    Devices(map[ByIdPath(id) := FILE], map[FILE := id])
  }

  function StageOf(id: VolumeId): N.NodeCall {
    N.Stage(id, STAGING, Some(N.VolumeCapability(H.Mount, "", [])), map[])
  }

  function AllWell(findmnt: Findmnt): N.Commands {
    N.Commands(None, Done, Exited(0), findmnt, Done, Done, true)
  }

  /** The staging path carries one mount, of the disk. */
  function Staged(id: VolumeId): map<Path, seq<MountEntry>> {
    map[STAGING := [MountEntry(OnDisk(id), "ext4", [], true)]]
  }

  lemma FileIsNoLink(id: VolumeId)
    ensures ByIdPath(id) != FILE
  {
    assert ByIdPath(id)[5] == 'd' && FILE[5] == 'v';
  }

  lemma AttachedShows(w: H.World, id: VolumeId, node: InstanceId)
    requires Attachment.Attached(w.cloud, id, node) && w.cloud.disks[id].attachments[node] == GenDiskId(id)
    ensures ShowsVolume(w.cloud, id, node, DevicesFor(id))
    ensures DiskAt(DevicesFor(id), ByIdPath(id)) == Some(id)
  {
    FileIsNoLink(id);
    assert UnderDev(ByIdPath(id)) && UnderDev(FILE);
  }

  /** A stage of a formatted disk on a node without mounts. */
  lemma StageMounts(h: Host, id: VolumeId)
    requires id != [] && h.mounts == map[] && id in h.contents && h.contents[id].FileSystem?
    ensures N.Entry(StageOf(id)) == N.Probing
    ensures N.Perform(h, StageOf(id), AllWell(Answers), Steady(DevicesFor(id))) ==
            (h.(mounts := Staged(id)), N.Succeeded)
  {
    var call, c, s := StageOf(id), AllWell(Answers), Steady(DevicesFor(id));
    FileIsNoLink(id);
    N.Unfold(h, call, c, s, N.Probing);
    N.Unfold(h, call, c, s, N.Repairing);
    NodeSafety.RunEnds(h, call, c, s, N.Checking(ByIdPath(id)));
    var entry := MountEntry(OnDisk(id), "ext4", [], true);
    assert MountsAt(h, STAGING) + [entry] == [entry];
    assert h.mounts[STAGING := [entry]] == Staged(id);
  }

  lemma BlindUnstage(h: Host, id: VolumeId)
    requires id != []
    ensures N.Perform(h, N.Unstage(id, STAGING), AllWell(StaysSilent), Steady(DevicesFor(id))) == (h, N.Succeeded)
  {
    NodeSafety.RunEnds(h, N.Unstage(id, STAGING), AllWell(StaysSilent), Steady(DevicesFor(id)), N.CheckingOff);
  }

  lemma Republish(w: H.World, id: VolumeId, node: InstanceId)
    requires id != [] && node != "" && id !in w.locks
    requires Attachment.Attached(w.cloud, id, node) && node in w.cloud.instances
    ensures H.Solo(w, H.Publish(id, node, true, false), H.FaultFree([])) == (w, H.Published(w.cloud.disks[id].name))
  {
    var call, o, vol := H.Publish(id, node, true, false), H.FaultFree([]), w.cloud.disks[id];
    H.Unfold(w, call, o, H.CheckLock);
    H.Unfold(w, call, o, H.GetDiskToPublish);
    H.Unfold(w, call, o, H.GetInstanceToPublish(vol));
  }

  /** Everything is at rest: the world, the nodes that see the disk, those that have it mounted, and the
      orchestrator's view. */
  datatype Scene = Scene(w: H.World, seeing: set<InstanceId>, staged: set<InstanceId>, co: Orchestrator)

  ghost predicate Stands(c: Cluster, k: nat, id: VolumeId, scene: Scene) {
    && AtRest(c, k) && c.sys.world == scene.w && c.co == scene.co
    && (forall node :: F.DevicesOn(c.fleet, node) ==
          if node in scene.seeing then DevicesFor(id) else Devices(map[], map[]))
    && (forall node :: F.HostOn(c.fleet, node).mounts == if node in scene.staged then Staged(id) else map[])
    && c.fleet.contents == map[id := FileSystem("ext4")]
  }

  /** The disk appears on a node. */
  lemma DiskAppears(c: Cluster, k: nat, id: VolumeId, scene: Scene, node: InstanceId) returns (run: seq<Event>)
    requires Stands(c, k, id, scene) && node !in scene.seeing
    ensures Stands(Exec(c, run), k, id, scene.(seeing := scene.seeing + {node})) && Unsighted(c, run) == 0
  {
    run := [OnNode(F.Udev(node, DevicesFor(id)))];
    ExecOne(c, run[0]);
  }

  /** A controller call changes the scene as it would run alone. */
  lemma ControlScene(c: Cluster, k: nat, id: VolumeId, scene: Scene, call: H.Call) returns (run: seq<Event>)
    requires Stands(c, k, id, scene)
    requires !H.Entry(call).Finished? && (call.Unpublish? ==> !UsesPaths(scene.co, call.id, call.node))
    ensures var (w, reply) := H.Solo(scene.w, call, H.FaultFree([]));
            var co := if call.Unpublish? then scene.co.(ready := scene.co.ready - {(call.id, call.node)}) else scene.co;
            Stands(Exec(c, run), k + 1, id, scene.(w := w, co := Informed(co, call, reply))) && Unsighted(c, run) == 0
  {
    run := ControlCall(c, k, call);
    hide Exec, H.Solo, H.Entry, Informed, UsesPaths, Unsighted;
  }

  /** A node call on a node that sees the disk changes the mounts there as it would run alone. */
  lemma NodeScene(c: Cluster, k: nat, id: VolumeId, scene: Scene, node: InstanceId, call: N.NodeCall,
                  commands: N.Commands,
                  mounts: map<Path, seq<MountEntry>>)
    returns (run: seq<Event>)
    requires Stands(c, k, id, scene) && node in scene.seeing
    requires Attachment.Attached(scene.w.cloud, id, node) && scene.w.cloud.disks[id].attachments[node] == GenDiskId(id)
    requires AllowsCall(scene.co, node, call) && call.Admissible() && !N.Entry(call).Ended?
    requires var h := F.HostOn(c.fleet, node);
             N.Perform(h, call, commands, Steady(DevicesFor(id))) == (h.(mounts := mounts), N.Succeeded)
    requires mounts in {map[], Staged(id)} && (node in scene.staged ==> mounts == Staged(id))
    ensures var uses := scene.co.inUse;
            var co := scene.co.(inUse :=
                        if Mounting(call) then uses + {UseOf(node, call)} else uses - {UseOf(node, call)});
            Stands(Exec(c, run), k + 1, id,
                   scene.(co := co, staged := if mounts == Staged(id) then scene.staged + {node} else scene.staged))
    ensures commands.findmnt == Answers ==> Unsighted(c, run) == 0
    ensures var stack := MountsAt(F.HostOn(c.fleet, node), N.TargetOf(call));
            !Mounting(call) && commands.findmnt == StaysSilent && stack != [] ==> Unsighted(c, run) == 1
  {
    AttachedShows(scene.w, id, node);
    run := NodeCallAlone(c, k, node, call, commands);
    hide Exec, N.Perform, N.Entry, ShowsVolume, AllowsCall, UseOf, Unsighted;
    NodeSceneFollows(c, Exec(c, run), k, id, scene, node, mounts);
  }

  lemma NodeSceneFollows(c: Cluster, c': Cluster, k: nat, id: VolumeId, scene: Scene, node: InstanceId,
                         mounts: map<Path, seq<MountEntry>>)
    requires Stands(c, k, id, scene) && AtRest(c', k + 1) && c'.sys == c.sys
    requires c'.fleet.mounts == c.fleet.mounts[node := mounts] && c'.fleet.devices == c.fleet.devices
    requires c'.fleet.contents == c.fleet.contents
    requires mounts in {map[], Staged(id)} && (node in scene.staged ==> mounts == Staged(id))
    ensures Stands(c', k + 1, id,
                   scene.(co := c'.co, staged := if mounts == Staged(id) then scene.staged + {node} else scene.staged))
  {
    hide AtRest;
    NodeSceneMounts(c, c', node, mounts);
    assert map[] != Staged(id) by { assert STAGING in Staged(id); }
  }

  lemma NodeSceneMounts(c: Cluster, c': Cluster, node: InstanceId, mounts: map<Path, seq<MountEntry>>)
    requires c'.fleet.mounts == c.fleet.mounts[node := mounts] && c'.fleet.devices == c.fleet.devices
    ensures forall other :: F.HostOn(c'.fleet, other).mounts ==
                            if other == node then mounts else F.HostOn(c.fleet, other).mounts
    ensures forall other :: F.DevicesOn(c'.fleet, other) == F.DevicesOn(c.fleet, other)
  {
  }

  lemma StagingIsOrdinary()
    ensures !UnderDev(STAGING)
  {
    assert STAGING[..5][1] == 's';
  }

  /** A stage of the disk on a node that has it attached and not mounted. */
  lemma StageScene(c: Cluster, k: nat, id: VolumeId, scene: Scene, node: InstanceId) returns (run: seq<Event>)
    requires Stands(c, k, id, scene) && node in scene.seeing && node !in scene.staged && id != []
    requires Attachment.Attached(scene.w.cloud, id, node) && scene.w.cloud.disks[id].attachments[node] == GenDiskId(id)
    requires scene.co == Orchestrator({(id, node)}, {})
    ensures Stands(Exec(c, run), k + 1, id,
                   scene.(staged := scene.staged + {node}, co := Orchestrator({(id, node)}, {(id, node, STAGING)})))
    ensures Unsighted(c, run) == 0
  {
    StageMounts(F.HostOn(c.fleet, node), id);
    StagingIsOrdinary();
    hide UnderDev;
    assert AllowsCall(scene.co, node, StageOf(id));
    hide Exec, Stands, N.Perform, N.Entry, AllowsCall, Unsighted;
    run := NodeScene(c, k, id, scene, node, StageOf(id), AllWell(Answers), Staged(id));
    assert {} + {UseOf(node, StageOf(id))} == {(id, node, STAGING)};
  }

  /** An unstage with a silent findmnt changes nothing but the orchestrator's mind. */
  lemma BlindUnstageScene(c: Cluster, k: nat, id: VolumeId, scene: Scene, node: InstanceId) returns (run: seq<Event>)
    requires Stands(c, k, id, scene) && node in scene.seeing && node in scene.staged && id != []
    requires Attachment.Attached(scene.w.cloud, id, node) && scene.w.cloud.disks[id].attachments[node] == GenDiskId(id)
    requires scene.co == Orchestrator({(id, node)}, {(id, node, STAGING)})
    ensures Stands(Exec(c, run), k + 1, id, scene.(co := Orchestrator({(id, node)}, {}))) && Unsighted(c, run) == 1
  {
    var unstage := N.Unstage(id, STAGING);
    BlindUnstage(F.HostOn(c.fleet, node), id);
    StagingIsOrdinary();
    hide UnderDev;
    assert AllowsCall(scene.co, node, unstage);
    assert F.HostOn(c.fleet, node).mounts == Staged(id);
    assert MountsAt(F.HostOn(c.fleet, node), STAGING) != [];
    hide Exec, Stands, N.Perform, N.Entry, AllowsCall, Unsighted;
    run := NodeScene(c, k, id, scene, node, unstage, AllWell(StaysSilent), Staged(id));
    assert {(id, node, STAGING)} - {UseOf(node, unstage)} == {};
    assert scene.staged + {node} == scene.staged;
  }

  /** The disk is published to a node, appears there and is staged. */
  lemma MovesIn(c: Cluster, k: nat, id: VolumeId, scene: Scene, node: InstanceId, w: H.World) returns (run: seq<Event>)
    requires Stands(c, k, id, scene) && node !in scene.seeing && node !in scene.staged && id != [] && node != ""
    requires scene.co == Orchestrator({}, {})
    requires H.Solo(scene.w, H.Publish(id, node, true, false), H.FaultFree([])).0 == w
    requires H.Solo(scene.w, H.Publish(id, node, true, false), H.FaultFree([])).1.Published?
    requires Attachment.Attached(w.cloud, id, node) && w.cloud.disks[id].attachments[node] == GenDiskId(id)
    ensures Stands(Exec(c, run), k + 2, id,
                   Scene(w, scene.seeing + {node}, scene.staged + {node},
                         Orchestrator({(id, node)}, {(id, node, STAGING)})))
    ensures Unsighted(c, run) == 0
  {
    hide Exec, Stands, H.Solo, Unsighted;
    var published := ControlScene(c, k, id, scene, H.Publish(id, node, true, false));
    var ready := Orchestrator({(id, node)}, {});
    assert {} + {(id, node)} == {(id, node)};
    var appears := DiskAppears(Exec(c, published), k + 1, id, scene.(w := w, co := ready), node);
    ExecConcat(c, published, appears);
    var scene' := scene.(w := w, co := ready, seeing := scene.seeing + {node});
    var stage := StageScene(Exec(c, published + appears), k + 1, id, scene', node);
    ExecConcat(c, published + appears, stage);
    run := published + appears + stage;
  }

  /** The disk is unstaged blindly and then detached. */
  lemma MovesOut(c: Cluster, k: nat, id: VolumeId, scene: Scene, node: InstanceId, w: H.World) returns (run: seq<Event>)
    requires Stands(c, k, id, scene) && node in scene.seeing && node in scene.staged && id != []
    requires scene.co == Orchestrator({(id, node)}, {(id, node, STAGING)})
    requires Attachment.Attached(scene.w.cloud, id, node) && scene.w.cloud.disks[id].attachments[node] == GenDiskId(id)
    requires H.Solo(scene.w, H.Unpublish(id, node), H.FaultFree([])).0 == w
    ensures Stands(Exec(c, run), k + 2, id, scene.(w := w, co := Orchestrator({}, {}))) && Unsighted(c, run) == 1
  {
    hide Exec, Stands, H.Solo, Unsighted;
    var unstage := BlindUnstageScene(c, k, id, scene, node);
    var scene' := scene.(co := Orchestrator({(id, node)}, {}));
    var unpublished := ControlScene(Exec(c, unstage), k + 1, id, scene', H.Unpublish(id, node));
    ExecConcat(c, unstage, unpublished);
    assert {(id, node)} - {(id, node)} == {};
    run := unstage + unpublished;
  }

  /**
   One findmnt that ends without a word, in an unstage, and the orchestrator, which follows
   all the rules, moves the volume to another node while the first still has it mounted. No
   other findmnt of the run is blind.
   */
  lemma BlindUnstageAllowsTwoWriters(id: VolumeId, m: InstanceId, n: InstanceId) returns (run: seq<Event>)
    requires id != [] && m != "" && n != "" && m != n
    ensures var w0 := WorldOf(id, {m, n}, map[m := GenDiskId(id)]);
            var c := Exec(Start(w0, map[id := FileSystem("ext4")]), run);
            Shows(c, m, STAGING, id) && Shows(c, n, STAGING, id)
    ensures Unsighted(Start(WorldOf(id, {m, n}, map[m := GenDiskId(id)]), map[id := FileSystem("ext4")]), run) == 1
  {
    var onM, detached, onN := WorldOf(id, {m, n}, map[m := GenDiskId(id)]), WorldOf(id, {m, n}, map[]),
                              WorldOf(id, {m, n}, map[n := GenDiskId(id)]);
    WorldsFollow(id, m, n);
    var c0 := Start(onM, map[id := FileSystem("ext4")]);
    var away := MovesAway(c0, id, m, onM, detached);
    hide Exec, Stands, H.Solo, Shows, Start, Unsighted;
    var second := MovesIn(Exec(c0, away), 4, id, Scene(detached, {m}, {m}, Orchestrator({}, {})), n, onN);
    ExecConcat(c0, away, second);
    run := away + second;
    var last := Scene(onN, {m} + {n}, {m} + {n}, Orchestrator({(id, n)}, {(id, n, STAGING)}));
    StagedShows(Exec(c0, run), 6, id, last, m);
    StagedShows(Exec(c0, run), 6, id, last, n);
  }

  /** From the start to the moment the orchestrator believes the disk is nowhere in use. */
  lemma MovesAway(c0: Cluster, id: VolumeId, m: InstanceId, onM: H.World, detached: H.World) returns (run: seq<Event>)
    requires c0 == Start(onM, map[id := FileSystem("ext4")]) && id != [] && m != ""
    requires Attachment.Attached(onM.cloud, id, m) && onM.cloud.disks[id].attachments[m] == GenDiskId(id)
    requires H.Solo(onM, H.Publish(id, m, true, false), H.FaultFree([])).0 == onM
    requires H.Solo(onM, H.Publish(id, m, true, false), H.FaultFree([])).1.Published?
    requires H.Solo(onM, H.Unpublish(id, m), H.FaultFree([])).0 == detached
    ensures Stands(Exec(c0, run), 4, id, Scene(detached, {m}, {m}, Orchestrator({}, {}))) && Unsighted(c0, run) == 1
  {
    var none := Orchestrator({}, {});
    assert Stands(c0, 0, id, Scene(onM, {}, {}, none));
    hide Exec, Stands, H.Solo, Start, GenDiskId, Unsighted;
    var first := MovesIn(c0, 0, id, Scene(onM, {}, {}, none), m, onM);
    assert {} + {m} == {m};
    var staged := Scene(onM, {m}, {m}, Orchestrator({(id, m)}, {(id, m, STAGING)}));
    var out := MovesOut(Exec(c0, first), 2, id, staged, m, detached);
    ExecConcat(c0, first, out);
    run := first + out;
  }

  lemma StagedShows(c: Cluster, k: nat, id: VolumeId, scene: Scene, node: InstanceId)
    requires Stands(c, k, id, scene) && node in scene.staged
    ensures Shows(c, node, STAGING, id)
  {
    assert F.HostOn(c.fleet, node).mounts == Staged(id);
    assert MountsAt(F.HostOn(c.fleet, node), STAGING)[0].backing == OnDisk(id);
  }

  lemma WorldsFollow(id: VolumeId, m: InstanceId, n: InstanceId)
    requires id != [] && m != "" && n != "" && m != n
    ensures var onM, detached, onN := WorldOf(id, {m, n}, map[m := GenDiskId(id)]), WorldOf(id, {m, n}, map[]),
                                      WorldOf(id, {m, n}, map[n := GenDiskId(id)]);
            && H.Solo(onM, H.Publish(id, m, true, false), H.FaultFree([])) == (onM, H.Published("data"))
            && H.Solo(onM, H.Unpublish(id, m), H.FaultFree([])).0 == detached
            && H.Solo(detached, H.Publish(id, n, true, false), H.FaultFree([])) == (onN, H.Published("data"))
  {
    var onM, detached := WorldOf(id, {m, n}, map[m := GenDiskId(id)]), WorldOf(id, {m, n}, map[]);
    hide H.Solo, GenDiskId;
    Republish(onM, id, m);
    ResizeLock.DetachAlone(onM, id, m);
    Answers.PublishAlone(detached, id, n, true, false, H.FaultFree([]));
    var d := detached.cloud.disks[id];
    assert SetDisk(detached.cloud, id, d.(attachments := map[n := GenDiskId(id)]))
        == WorldOf(id, {m, n}, map[n := GenDiskId(id)]).cloud;
  }
}
