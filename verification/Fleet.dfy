/**
 The node services of a cluster under concurrency: any number of node calls in flight on any
 number of nodes, advancing one command at a time in any order, while devices come and go
 between commands. At most one call per volume, and one per path of a node, is in flight at
 a time (CSI specification v1.11.0, Overview, "Concurrency").
 */
module Fleet {
  import opened Outcomes
  import opened DiskName
  import opened Cloud
  import opened Mounter
  import opened Node
  import H = Handlers
  import NodeSafety

  datatype Task = Task(node: InstanceId, call: NodeCall, commands: Commands, pc: NodePc)

  /** The contents of the disks belong to all nodes: a disk takes its file system along. */
  datatype Fleet = Fleet(
    mounts: map<InstanceId, map<Path, seq<MountEntry>>>,
    devices: map<InstanceId, Devices>,
    contents: map<VolumeId, Content>,
    formatted: seq<VolumeId>,
    tasks: map<nat, Task>)

  datatype Event =
    | Begin(k: nat, node: InstanceId, call: NodeCall, commands: Commands)
    | Advance(k: nat)
    | Udev(node: InstanceId, devices: Devices)
    | Down(node: InstanceId)
    | Killed(k: nat)
    | Stutter

  function HostOn(f: Fleet, node: InstanceId): Host {
    Host(if node in f.mounts then f.mounts[node] else map[], f.contents, f.formatted)
  }

  function DevicesOn(f: Fleet, node: InstanceId): Devices {
    if node in f.devices then f.devices[node] else Devices(map[], map[])
  }

  predicate Running(f: Fleet, k: nat) {
    k in f.tasks && !f.tasks[k].pc.Ended?
  }

  /** The mounts of the path a call is about. */
  function PathMounts(f: Fleet, t: Task): seq<MountEntry> {
    MountsAt(HostOn(f, t.node), TargetOf(t.call))
  }

  /** The two calls may not be in flight together. */
  predicate Clash(node: InstanceId, call: NodeCall, other: InstanceId, otherCall: NodeCall) {
    call.id == otherCall.id || (node == other && TargetOf(call) == TargetOf(otherCall))
  }

  predicate Free(f: Fleet, node: InstanceId, call: NodeCall) {
    forall k :: k in f.tasks && Running(f, k) ==> !Clash(node, call, f.tasks[k].node, f.tasks[k].call)
  }

  function AdvanceTask(f: Fleet, k: nat): Fleet
    requires Running(f, k) && Fits(f.tasks[k].call, f.tasks[k].pc)
  {
    var t := f.tasks[k];
    var (h, pc) := Step(HostOn(f, t.node), DevicesOn(f, t.node), t.call, t.commands, t.pc);
    f.(mounts := f.mounts[t.node := h.mounts], contents := h.contents, formatted := h.formatted,
       tasks := f.tasks[k := t.(pc := pc)])
  }

  /** A call whose process ends in the middle of it. */
  function CutOff(t: Task): Task {
    t.(pc := Ended(Failed(H.Unavailable)))
  }

  /** An instance that goes down takes its mounts and its calls with it. */
  function WithoutNode(f: Fleet, node: InstanceId): Fleet {
    f.(mounts := f.mounts - {node}, devices := f.devices - {node},
       tasks := map k | k in f.tasks ::
         if f.tasks[k].node == node && !f.tasks[k].pc.Ended? then CutOff(f.tasks[k]) else f.tasks[k])
  }

  /** An event that is not possible does nothing, so every sequence of events is a run. */
  function Next(f: Fleet, e: Event): Fleet {
    match e
    case Begin(k, node, call, commands) =>
      if k in f.tasks || !call.Admissible() || !Free(f, node, call) then f
      else f.(tasks := f.tasks[k := Task(node, call, commands, Entry(call))])
    case Advance(k) =>
      if Running(f, k) && Fits(f.tasks[k].call, f.tasks[k].pc) then AdvanceTask(f, k) else f
    case Udev(node, devices) => f.(devices := f.devices[node := devices])
    case Down(node) => WithoutNode(f, node)
    case Killed(k) => if Running(f, k) then f.(tasks := f.tasks[k := CutOff(f.tasks[k])]) else f
    case Stutter => f
  }

  function Exec(f: Fleet, run: seq<Event>): Fleet {
    if run == [] then f else Next(Exec(f, run[..|run| - 1]), run[|run| - 1])
  }

  /** The fleet after the first n events of the run. */
  function At(f: Fleet, run: seq<Event>, n: nat): Fleet
    requires n <= |run|
  {
    Exec(f, run[..n])
  }

  lemma AtNext(f: Fleet, run: seq<Event>, n: nat)
    requires n < |run|
    ensures At(f, run, n + 1) == Next(At(f, run, n), run[n])
  {
    assert run[..n + 1][..n] == run[..n];
  }

  // ---------- what every run keeps ----------

  /** Calls run their own commands, and no two in flight clash. */
  predicate Disciplined(f: Fleet) {
    && (forall k :: k in f.tasks ==> Fits(f.tasks[k].call, f.tasks[k].pc))
    && (forall j, k :: j in f.tasks && k in f.tasks && j != k && Running(f, j) && Running(f, k) ==>
          !Clash(f.tasks[j].node, f.tasks[j].call, f.tasks[k].node, f.tasks[k].call))
  }

  lemma NextKeepsDiscipline(f: Fleet, e: Event)
    requires Disciplined(f)
    ensures Disciplined(Next(f, e))
  {
    var f' := Next(f, e);
    hide Step, Entry, TargetOf, Remaining, HostOn, DevicesOn;
    match e
    case Begin(k, node, call, _) =>
      if f' != f {
        forall j | j in f.tasks && Running(f, j)
          ensures !Clash(node, call, f.tasks[j].node, f.tasks[j].call)
          ensures !Clash(f.tasks[j].node, f.tasks[j].call, node, call)
        {
        }
        EntryFits(call);
      }
    case _ =>
  }

  lemma EntryFits(call: NodeCall)
    requires call.Admissible()
    ensures Fits(call, Entry(call))
  {
  }

  lemma {:induction false} RunsAreDisciplined(f: Fleet, run: seq<Event>)
    requires Disciplined(f)
    ensures Disciplined(Exec(f, run))
  {
    if run != [] {
      RunsAreDisciplined(f, run[..|run| - 1]);
      NextKeepsDiscipline(Exec(f, run[..|run| - 1]), run[|run| - 1]);
    }
  }

  // ---------- looking back from a command to the one before it ----------

  /** Call k stands where it is from the first to the last of these moments. */
  predicate Stands(f: Fleet, run: seq<Event>, i: nat, n: nat, k: nat) {
    && i <= n <= |run| && k in At(f, run, n).tasks
    && forall m :: i <= m <= n ==> k in At(f, run, m).tasks && At(f, run, m).tasks[k] == At(f, run, n).tasks[k]
  }

  /** Event i ran a command of call k, and after it the call stood where it stands after n events. */
  predicate LastRan(f: Fleet, run: seq<Event>, i: nat, k: nat, n: nat) {
    && i < n <= |run| && run[i] == Advance(k) && Running(At(f, run, i), k)
    && Fits(At(f, run, i).tasks[k].call, At(f, run, i).tasks[k].pc) && Stands(f, run, i + 1, n, k)
  }

  /** Only its own commands move a call in flight. */
  lemma StandsStill(f: Fleet, e: Event, k: nat)
    requires Running(Next(f, e), k)
    requires e == Advance(k) ==> !(Running(f, k) && Fits(f.tasks[k].call, f.tasks[k].pc))
    ensures (k in f.tasks && Next(f, e).tasks[k] == f.tasks[k])
         || (e.Begin? && e.call.Admissible() && Next(f, e).tasks[k] == Task(e.node, e.call, e.commands, Entry(e.call)))
  {
  }

  /** The same call, with no more commands to come than before. */
  predicate Later(t: Task, u: Task) {
    u.node == t.node && u.call == t.call && u.commands == t.commands && Remaining(u.pc) <= Remaining(t.pc)
  }

  /** A call stays the same call and gets closer to its end. */
  lemma MovesOn(f: Fleet, e: Event, k: nat)
    requires k in f.tasks
    ensures var f' := Next(f, e);
            && k in f'.tasks && Later(f.tasks[k], f'.tasks[k])
            && (e == Advance(k) && Running(f, k) && Fits(f.tasks[k].call, f.tasks[k].pc) ==>
                  Remaining(f'.tasks[k].pc) < Remaining(f.tasks[k].pc))
  {
    if e.Advance? && Running(f, e.k) && Fits(f.tasks[e.k].call, f.tasks[e.k].pc) {
      var t := f.tasks[e.k];
      var r := Step(HostOn(f, t.node), DevicesOn(f, t.node), t.call, t.commands, t.pc);
      hide Step;
    }
  }

  /** The call is past its first command. */
  predicate PastEntry(t: Task) {
    t.call.Admissible() ==> t.pc != Entry(t.call)
  }

  /** A call in flight that is past its first command ran one before. */
  lemma {:induction false} LookBack(f: Fleet, run: seq<Event>, k: nat, n: nat) returns (i: nat)
    requires f.tasks == map[] && n <= |run| && Running(At(f, run, n), k) && PastEntry(At(f, run, n).tasks[k])
    ensures LastRan(f, run, i, k, n)
  {
    NothingRunsYet(f, run, k);
    hide *;
    if RanLast(f, run, k, n) {
      i := n - 1;
      RanNow(f, run, k, n);
    } else {
      StoodStill(f, run, k, n);
      i := LookBack(f, run, k, n - 1);
      StandsOn(f, run, i, k, n);
    }
  }

  lemma NothingRunsYet(f: Fleet, run: seq<Event>, k: nat)
    requires f.tasks == map[]
    ensures !Running(At(f, run, 0), k)
  {
    assert run[..0] == [];
  }

  lemma RanNow(f: Fleet, run: seq<Event>, k: nat, n: nat)
    requires 0 < n <= |run| && Running(At(f, run, n), k) && RanLast(f, run, k, n)
    ensures LastRan(f, run, n - 1, k, n)
  {
    hide At;
  }

  predicate RanLast(f: Fleet, run: seq<Event>, k: nat, n: nat)
    requires 0 < n <= |run|
  {
    && run[n - 1] == Advance(k) && Running(At(f, run, n - 1), k)
    && Fits(At(f, run, n - 1).tasks[k].call, At(f, run, n - 1).tasks[k].pc)
  }

  lemma StoodStill(f: Fleet, run: seq<Event>, k: nat, n: nat)
    requires 0 < n <= |run| && Running(At(f, run, n), k) && PastEntry(At(f, run, n).tasks[k]) && !RanLast(f, run, k, n)
    ensures Running(At(f, run, n - 1), k) && At(f, run, n - 1).tasks[k] == At(f, run, n).tasks[k]
  {
    AtNext(f, run, n - 1);
    StandsStill(At(f, run, n - 1), run[n - 1], k);
  }

  lemma StandsOn(f: Fleet, run: seq<Event>, i: nat, k: nat, n: nat)
    requires 0 < n <= |run| && LastRan(f, run, i, k, n - 1)
    requires Running(At(f, run, n), k) && At(f, run, n - 1).tasks[k] == At(f, run, n).tasks[k]
    ensures LastRan(f, run, i, k, n)
  {
  }

  // ---------- depth over runs ----------

  /** On every node, at most one mount on every path. */
  ghost predicate MountedOnce(f: Fleet) {
    forall node :: NodeSafety.MountedOnce(HostOn(f, node))
  }

  /** Event n of the run is the mount command of call k, and it takes effect. */
  predicate MountsAtEvent(f: Fleet, run: seq<Event>, n: nat, k: nat) {
    && n < |run| && run[n] == Advance(k) && Running(At(f, run, n), k)
    && var t := At(f, run, n).tasks[k];
    && t.pc.Mounting? && Fits(t.call, t.pc)
    && NodeSafety.MountTakes(HostOn(At(f, run, n), t.node), DevicesOn(At(f, run, n), t.node),
                             t.call, t.commands, t.pc.source)
  }

  /** Event i of the run is a findmnt of call k that ends without a word although the path has a mount. */
  predicate BlindAtEvent(f: Fleet, run: seq<Event>, i: nat, k: nat) {
    && i < |run| && run[i] == Advance(k) && Running(At(f, run, i), k)
    && var t := At(f, run, i).tasks[k];
    && (t.pc.Checking? || t.pc.CheckingOff?)
    && NodeSafety.Blind(HostOn(At(f, run, i), t.node), TargetOf(t.call), t.commands)
  }

  /** Call k mounts at event n after a blind findmnt at event i. */
  predicate StacksAtEvent(f: Fleet, run: seq<Event>, i: nat, n: nat, k: nat) {
    i < n && BlindAtEvent(f, run, i, k) && MountsAtEvent(f, run, n, k)
  }

  /** A step keeps every path at one mount unless it mounts on a path that has one, and only then. */
  lemma StepDepth(f: Fleet, k: nat)
    requires MountedOnce(f) && Running(f, k) && Fits(f.tasks[k].call, f.tasks[k].pc)
    ensures var t := f.tasks[k];
            MountedOnce(AdvanceTask(f, k)) <==>
            !(&& t.pc.Mounting? && PathMounts(f, t) != []
              && NodeSafety.MountTakes(HostOn(f, t.node), DevicesOn(f, t.node), t.call, t.commands, t.pc.source))
  {
    var t, f' := f.tasks[k], AdvanceTask(f, k);
    var h, h' := HostOn(f, t.node), HostOn(f', t.node);
    HostStepDepth(h, DevicesOn(f, t.node), t.call, t.commands, t.pc);
    assert h' == Step(h, DevicesOn(f, t.node), t.call, t.commands, t.pc).0;
    forall node | node != t.node
      ensures NodeSafety.MountedOnce(HostOn(f', node))
    {
      SameMountsOnce(HostOn(f, node), HostOn(f', node));
    }
  }

  lemma HostStepDepth(h: Host, d: Devices, call: NodeCall, c: Commands, pc: NodePc)
    requires NodeSafety.MountedOnce(h) && Fits(call, pc) && !pc.Ended?
    ensures NodeSafety.MountedOnce(Step(h, d, call, c, pc).0) <==>
            !(pc.Mounting? && MountsAt(h, TargetOf(call)) != [] && NodeSafety.MountTakes(h, d, call, c, pc.source))
  {
    var h' := Step(h, d, call, c, pc).0;
    var target := TargetOf(call);
    if h'.mounts == h.mounts {
      SameMountsOnce(h, h');
    }
    hide Mountable, MountSettings, MountedAt, FormattedBy, Fits;
    assert |MountsAt(h, target)| <= 1;
  }

  lemma SameMountsOnce(h: Host, h': Host)
    requires NodeSafety.MountedOnce(h) && h'.mounts == h.mounts
    ensures NodeSafety.MountedOnce(h')
  {
    assert forall target :: MountsAt(h', target) == MountsAt(h, target);
  }

  /** Nobody else touches the path of a call in flight. */
  lemma {:induction false} PathStays(f: Fleet, run: seq<Event>, i: nat, n: nat, k: nat)
    requires f.tasks == map[] && Stands(f, run, i, n, k) && Running(At(f, run, n), k)
    ensures var t := At(f, run, n).tasks[k]; PathMounts(At(f, run, n), t) == PathMounts(At(f, run, i), t)
    decreases n
  {
    if i < n {
      StoodBefore(f, run, i, n, k);
      hide *;
      PathStays(f, run, i, n - 1, k);
      AtNext(f, run, n - 1);
      RunIsDisciplined(f, run, n - 1);
      EventSparesPath(At(f, run, n - 1), run[n - 1], k);
    }
  }

  lemma RunIsDisciplined(f: Fleet, run: seq<Event>, n: nat)
    requires f.tasks == map[] && n <= |run|
    ensures Disciplined(At(f, run, n))
  {
    RunsAreDisciplined(f, run[..n]);
  }

  lemma StoodBefore(f: Fleet, run: seq<Event>, i: nat, n: nat, k: nat)
    requires Stands(f, run, i, n, k) && i < n && Running(At(f, run, n), k)
    ensures Stands(f, run, i, n - 1, k) && Running(At(f, run, n - 1), k)
    ensures At(f, run, n - 1).tasks[k] == At(f, run, n).tasks[k]
  {
    hide At;
    assert At(f, run, n - 1).tasks[k] == At(f, run, n).tasks[k];
  }

  lemma EventSparesPath(f: Fleet, e: Event, k: nat)
    requires Disciplined(f) && Running(f, k) && Running(Next(f, e), k)
    requires Next(f, e).tasks[k] == f.tasks[k]
    ensures PathMounts(Next(f, e), f.tasks[k]) == PathMounts(f, f.tasks[k])
  {
    var t := f.tasks[k];
    match e
    case Advance(j) =>
      if j != k && Running(f, j) {
        var u := f.tasks[j];
        assert !Clash(u.node, u.call, t.node, t.call);
        if u.node == t.node {
          StepIsLocal(HostOn(f, u.node), DevicesOn(f, u.node), u.call, u.commands, u.pc, TargetOf(t.call));
        }
      }
    case _ =>
  }

  /** A command touches the mounts of no path but its call's. */
  lemma StepSparesPath(f: Fleet, k: nat, node: InstanceId, path: Path)
    requires Running(f, k) && Fits(f.tasks[k].call, f.tasks[k].pc)
    requires (node, path) != (f.tasks[k].node, TargetOf(f.tasks[k].call))
    ensures MountsAt(HostOn(AdvanceTask(f, k), node), path) == MountsAt(HostOn(f, node), path)
  {
    var t := f.tasks[k];
    if node == t.node {
      StepIsLocal(HostOn(f, node), DevicesOn(f, node), t.call, t.commands, t.pc, path);
    }
  }

  lemma StepIsLocal(h: Host, d: Devices, call: NodeCall, c: Commands, pc: NodePc, path: Path)
    requires Fits(call, pc) && !pc.Ended? && path != TargetOf(call)
    ensures MountsAt(Step(h, d, call, c, pc).0, path) == MountsAt(h, path)
  {
  }

  /** The findmnt before a mount command: it found no mount or ended without a word, and the path is as it was. */
  lemma CheckedBefore(f: Fleet, run: seq<Event>, n: nat, k: nat) returns (i: nat)
    requires f.tasks == map[] && MountsAtEvent(f, run, n, k)
    ensures i < n && run[i] == Advance(k) && Running(At(f, run, i), k)
    ensures var t, t' := At(f, run, i).tasks[k], At(f, run, n).tasks[k];
            && t == t'.(pc := Checking(t'.pc.source))
            && PathMounts(At(f, run, i), t) == PathMounts(At(f, run, n), t)
            && MountedAt(HostOn(At(f, run, i), t.node), TargetOf(t.call), t.commands.findmnt) == Ok(false)
  {
    i := LookBack(f, run, k, n);
    AtNext(f, run, i);
    MovesOn(At(f, run, i), run[i], k);
    assert At(f, run, i + 1).tasks[k] == At(f, run, n).tasks[k];
    PathStays(f, run, i + 1, n, k);
    CheckBeforeMount(At(f, run, i), k);
  }

  lemma CheckBeforeMount(f: Fleet, k: nat)
    requires Running(f, k) && Fits(f.tasks[k].call, f.tasks[k].pc) && AdvanceTask(f, k).tasks[k].pc.Mounting?
    ensures var t := f.tasks[k];
            && t.pc == Checking(AdvanceTask(f, k).tasks[k].pc.source)
            && MountedAt(HostOn(f, t.node), TargetOf(t.call), t.commands.findmnt) == Ok(false)
            && HostOn(AdvanceTask(f, k), t.node) == HostOn(f, t.node)
  {
  }

  /** A mount stacks exactly when the findmnt before it was blind. */
  lemma StackingIsBlind(f: Fleet, run: seq<Event>, n: nat, k: nat)
    requires f.tasks == map[] && MountsAtEvent(f, run, n, k)
    ensures PathMounts(At(f, run, n), At(f, run, n).tasks[k]) != [] <==>
            exists i :: StacksAtEvent(f, run, i, n, k)
  {
    var i := CheckedBefore(f, run, n, k);
    if PathMounts(At(f, run, i), At(f, run, i).tasks[k]) != [] {
      assert StacksAtEvent(f, run, i, n, k);
    }
    if j: nat :| StacksAtEvent(f, run, j, n, k) {
      ChecksOnce(f, run, i, j, k);
      ChecksOnce(f, run, j, i, k);
    }
  }

  lemma {:induction false} PcFalls(f: Fleet, run: seq<Event>, i: nat, j: nat, k: nat)
    requires i <= j <= |run| && k in At(f, run, i).tasks
    ensures k in At(f, run, j).tasks && Later(At(f, run, i).tasks[k], At(f, run, j).tasks[k])
    decreases j
  {
    hide *;
    if i == j {
      LaterThanItself(At(f, run, i).tasks[k]);
    } else {
      PcFalls(f, run, i, j - 1, k);
      AtNext(f, run, j - 1);
      var g := At(f, run, j - 1);
      MovesOn(g, run[j - 1], k);
      LaterComposes(At(f, run, i).tasks[k], g.tasks[k], Next(g, run[j - 1]).tasks[k]);
    }
  }

  lemma LaterThanItself(t: Task)
    ensures Later(t, t)
  {
  }

  lemma LaterComposes(t: Task, u: Task, v: Task)
    requires Later(t, u) && Later(u, v)
    ensures Later(t, v)
  {
  }

  /** A call runs findmnt once. */
  lemma ChecksOnce(f: Fleet, run: seq<Event>, i: nat, j: nat, k: nat)
    requires f.tasks == map[] && i < |run| && j < |run| && run[i] == Advance(k)
    requires Running(At(f, run, i), k) && Remaining(At(f, run, i).tasks[k].pc) == 2
    requires Running(At(f, run, j), k) && Remaining(At(f, run, j).tasks[k].pc) == 2
    ensures j <= i
  {
    if i < j {
      RunsAreDisciplined(f, run[..i]);
      AtNext(f, run, i);
      MovesOn(At(f, run, i), run[i], k);
      PcFalls(f, run, i + 1, j, k);
    }
  }

  lemma {:induction false} DepthWithoutStacking(f: Fleet, run: seq<Event>, n: nat)
    requires f.tasks == map[] && MountedOnce(f) && n <= |run|
    requires forall i, m, k :: !StacksAtEvent(f, run, i, m, k)
    ensures MountedOnce(At(f, run, n))
  {
    if n > 0 {
      DepthWithoutStacking(f, run, n - 1);
      EventKeepsDepth(f, run, n - 1);
    }
  }

  lemma EventKeepsDepth(f: Fleet, run: seq<Event>, n: nat)
    requires f.tasks == map[] && n < |run| && MountedOnce(At(f, run, n))
    requires forall i, k :: !StacksAtEvent(f, run, i, n, k)
    ensures MountedOnce(At(f, run, n + 1))
  {
    RunsAreDisciplined(f, run[..n]);
    AtNext(f, run, n);
    var before, e := At(f, run, n), run[n];
    if e.Advance? && Running(before, e.k) {
      hide Exec, Step, NodeSafety.MountTakes, MountedOnce, StacksAtEvent;
      StepDepth(before, e.k);
      if MountsAtEvent(f, run, n, e.k) {
        StackingIsBlind(f, run, n, e.k);
      }
    } else {
      OtherEventsKeepDepth(before, e);
    }
  }

  lemma OtherEventsKeepDepth(f: Fleet, e: Event)
    requires MountedOnce(f) && (e.Advance? ==> !Running(f, e.k))
    ensures MountedOnce(Next(f, e))
  {
    forall node ensures NodeSafety.MountedOnce(HostOn(Next(f, e), node)) {
      if node in Next(f, e).mounts || node !in f.mounts {
        SameMountsOnce(HostOn(f, node), HostOn(Next(f, e), node));
      }
    }
  }

  /**
   In every run of node calls, interleaved in any way, with any failures and whatever devices
   come and go: no path ever carries more than one mount, unless a call mounts after its
   findmnt ended without a word on a path that had a mount, and only then.
   */
  lemma MountDepth(f: Fleet, run: seq<Event>)
    requires f.tasks == map[] && MountedOnce(f)
    ensures (forall n :: 0 <= n <= |run| ==> MountedOnce(At(f, run, n))) <==>
            !exists i, n, k :: StacksAtEvent(f, run, i, n, k)
  {
    if i: nat, n: nat, k: nat :| StacksAtEvent(f, run, i, n, k) {
      StackingIsBlind(f, run, n, k);
      AtNext(f, run, n);
      if MountedOnce(At(f, run, n)) {
        StepDepth(At(f, run, n), k);
      }
      assert !MountedOnce(At(f, run, n)) || !MountedOnce(At(f, run, n + 1));
    } else {
      forall n | 0 <= n <= |run| ensures MountedOnce(At(f, run, n)) {
        DepthWithoutStacking(f, run, n);
      }
    }
  }

  // ---------- what makes a path deep ----------

  /** Only the mount command of a call about the path makes its stack longer, and only by one. */
  lemma PathDeepens(f: Fleet, e: Event, node: InstanceId, path: Path)
    requires |MountsAt(HostOn(Next(f, e), node), path)| > |MountsAt(HostOn(f, node), path)|
    ensures e.Advance? && Running(f, e.k)
    ensures var t := f.tasks[e.k];
            && t.node == node && TargetOf(t.call) == path && t.pc.Mounting? && Fits(t.call, t.pc)
            && NodeSafety.MountTakes(HostOn(f, node), DevicesOn(f, node), t.call, t.commands, t.pc.source)
            && |MountsAt(HostOn(Next(f, e), node), path)| == |MountsAt(HostOn(f, node), path)| + 1
  {
    if e.Advance? && Running(f, e.k) && Fits(f.tasks[e.k].call, f.tasks[e.k].pc) {
      var t := f.tasks[e.k];
      if (node, path) != (t.node, TargetOf(t.call)) {
        StepSparesPath(f, e.k, node, path);
      } else {
        StackDeepens(HostOn(f, node), DevicesOn(f, node), t.call, t.commands, t.pc);
      }
    }
  }

  lemma StackDeepens(h: Host, d: Devices, call: NodeCall, c: Commands, pc: NodePc)
    requires Fits(call, pc) && !pc.Ended?
    requires |MountsAt(Step(h, d, call, c, pc).0, TargetOf(call))| > |MountsAt(h, TargetOf(call))|
    ensures pc.Mounting? && NodeSafety.MountTakes(h, d, call, c, pc.source)
    ensures |MountsAt(Step(h, d, call, c, pc).0, TargetOf(call))| == |MountsAt(h, TargetOf(call))| + 1
  {
  }

  /** A path with more than one mount was made so by a call that mounted after a blind findmnt. */
  lemma {:induction false} DeepPathIsStacked(f: Fleet, run: seq<Event>, n: nat, node: InstanceId, path: Path)
    returns (i: nat, m: nat, k: nat)
    requires f.tasks == map[] && MountedOnce(f) && n <= |run| && |MountsAt(HostOn(At(f, run, n), node), path)| > 1
    ensures i < m < n && StacksAtEvent(f, run, i, m, k)
    ensures At(f, run, m).tasks[k].node == node && TargetOf(At(f, run, m).tasks[k].call) == path
  {
    OnceAtFirst(f, run, node, path);
    hide *;
    if |MountsAt(HostOn(At(f, run, n - 1), node), path)| > 1 {
      i, m, k := DeepPathIsStacked(f, run, n - 1, node, path);
    } else {
      m := n - 1;
      i, k := StackedNow(f, run, m, node, path);
    }
  }

  lemma OnceAtFirst(f: Fleet, run: seq<Event>, node: InstanceId, path: Path)
    requires MountedOnce(f)
    ensures |MountsAt(HostOn(At(f, run, 0), node), path)| <= 1
  {
    assert run[..0] == [];
    assert NodeSafety.MountedOnce(HostOn(f, node));
  }

  lemma StackedNow(f: Fleet, run: seq<Event>, n: nat, node: InstanceId, path: Path) returns (i: nat, k: nat)
    requires f.tasks == map[] && n < |run|
    requires |MountsAt(HostOn(At(f, run, n), node), path)| <= 1 < |MountsAt(HostOn(At(f, run, n + 1), node), path)|
    ensures i < n && StacksAtEvent(f, run, i, n, k)
    ensures At(f, run, n).tasks[k].node == node && TargetOf(At(f, run, n).tasks[k].call) == path
  {
    AtNext(f, run, n);
    PathDeepens(At(f, run, n), run[n], node, path);
    k := run[n].k;
    assert MountsAtEvent(f, run, n, k);
    StackingIsBlind(f, run, n, k);
    hide At, Next, Exec, MountsAt;
    i :| StacksAtEvent(f, run, i, n, k);
  }
}
