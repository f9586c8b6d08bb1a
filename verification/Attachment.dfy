/** Attachments over every run: one instance per disk, and device names that lead back to the disk. */
module Attachment {
  import opened DiskName
  import opened Cloud
  import opened Handlers
  import opened System

  predicate Attached(c: CloudState, id: VolumeId, n: InstanceId) {
    id in c.disks && n in c.disks[id].attachments
  }

  ghost predicate SingleDisk(c: CloudState, id: VolumeId) {
    forall m, n :: Attached(c, id, m) && Attached(c, id, n) ==> m == n
  }

  /** Every disk is attached to at most one instance. */
  ghost predicate Single(c: CloudState) {
    forall id :: SingleDisk(c, id)
  }

  /** Attached the way the driver does it, under the name derived from the volume id. */
  predicate Ours(c: CloudState, id: VolumeId, n: InstanceId) {
    Attached(c, id, n) && c.disks[id].attachments[n] == GenDiskId(id)
  }

  /** What a publish relies on between its reads and its attach call. */
  ghost predicate AttachPlanned(c: CloudState, p: Proc) {
    match p.pc
    case GetInstanceToPublish(vol) =>
      && p.call.Publish? && p.call.id in c.disks
      && c.disks[p.call.id].attachments.Keys <= vol.attachments.Keys
      && (p.call.node in vol.attachments && p.call.node in c.instances ==> Attached(c, p.call.id, p.call.node))
    case CallAttach(vol) =>
      p.call.Publish? && p.call.id in c.disks && c.disks[p.call.id].attachments == map[]
    case _ => true
  }

  ghost predicate Attachable(s: Sys) {
    forall k :: k in s.procs ==> AttachPlanned(s.world.cloud, s.procs[k])
  }

  // ---------- how attachments change ----------

  /** The attachment was there before, under the same name, and a live instance stays alive. */
  predicate Stays(c: CloudState, c': CloudState, id: VolumeId, n: InstanceId)
    requires Attached(c', id, n)
  {
    && Attached(c, id, n) && c.disks[id].attachments[n] == c'.disks[id].attachments[n]
    && (n in c.instances ==> n in c'.instances)
  }

  /** The attachment is new: the disk was detached, the instance is alive and the name is the driver's. */
  predicate Arrives(c: CloudState, c': CloudState, id: VolumeId, n: InstanceId)
    requires Attached(c', id, n)
  {
    && id in c.disks && c.disks[id].attachments == map[]
    && c'.disks[id].attachments == map[n := GenDiskId(id)] && n in c'.instances
  }

  ghost predicate Moves(c: CloudState, c': CloudState) {
    forall id, n :: Attached(c', id, n) ==> Stays(c, c', id, n) || Arrives(c, c', id, n)
  }

  lemma SettleMoves(c: CloudState, m: Mutation, fate: Fate)
    requires m.CreateDisk? ==> m.disk.attachments == map[]
    requires m.AttachDisk? ==>
               m.deviceName == GenDiskId(m.id) && (m.id in c.disks ==> c.disks[m.id].attachments == map[])
    ensures Moves(c, Settle(c, m, fate).0)
  {
    var c' := Settle(c, m, fate).0;
    hide GenDiskId;
    if m.AttachDisk? && m.id in c.disks {
      assert c.disks[m.id].attachments[m.instance := m.deviceName] == map[m.instance := m.deviceName];
    }
  }

  lemma StepMoves(w: World, p: Proc)
    requires Fits(p.call, p.pc) && !p.pc.Finished? && AttachPlanned(w.cloud, p)
    ensures var (w', pc') := Step(w, p.call, p.oracle, p.pc);
            Moves(w.cloud, w'.cloud) && AttachPlanned(w'.cloud, p.(pc := pc'))
  {
    assert Moves(w.cloud, w.cloud);
    hide Settle, Moves;
    match p.pc
    case CallCreate(plan) => SettleMoves(w.cloud, CreateDisk(p.oracle.newId, plan.NewDisk()), p.oracle.fate);
    case CallDelete => SettleMoves(w.cloud, DeleteDisk(p.call.id), p.oracle.fate);
    case CallAttach(_) => SettleMoves(w.cloud, AttachDisk(p.call.id, p.call.node, GenDiskId(p.call.id)), p.oracle.fate);
    case CallDetach => SettleMoves(w.cloud, DetachDisk(p.call.id, p.call.node), p.oracle.fate);
    case CallUpdate(bytes) => SettleMoves(w.cloud, UpdateSize(p.call.id, bytes), p.oracle.fate);
    case _ =>
  }

  lemma OthersKeepTheirReads(w: World, p: Proc, other: Proc)
    requires Sound(w.cloud) && Fits(p.call, p.pc) && !p.pc.Finished?
    requires AttachPlanned(w.cloud, other) && KeyOf(other.call) != KeyOf(p.call)
    ensures AttachPlanned(Step(w, p.call, p.oracle, p.pc).0.cloud, other)
  {
  }

  lemma InstanceDownKeepsPlan(c: CloudState, instance: InstanceId, p: Proc)
    requires AttachPlanned(c, p)
    ensures AttachPlanned(WithoutInstance(c, instance), p)
  {
    if p.pc.CallAttach? {
      assert WithoutInstance(c, instance).disks[p.call.id].attachments == map[];
    }
  }

  /** One event of a run. */
  lemma NextMoves(s: Sys, e: Event)
    requires Disciplined(s) && Attachable(s)
    ensures Moves(s.world.cloud, Next(s, e).world.cloud) && Attachable(Next(s, e))
  {
    var s' := Next(s, e);
    assert Moves(s.world.cloud, s.world.cloud);
    match e
    case Advance(k) =>
      if InFlight(s, k) {
        hide Moves;
        var p := s.procs[k];
        StepMoves(s.world, p);
        forall j | j in s'.procs ensures AttachPlanned(s'.world.cloud, s'.procs[j]) {
          if j != k && InFlight(s, j) {
            OthersKeepTheirReads(s.world, p, s.procs[j]);
          }
        }
      }
    case InstanceDown(instance) =>
      forall j | j in s'.procs ensures AttachPlanned(s'.world.cloud, s'.procs[j]) {
        InstanceDownKeepsPlan(s.world.cloud, instance, s.procs[j]);
      }
    case _ =>
  }

  lemma MovesKeepSingle(c: CloudState, c': CloudState, id: VolumeId)
    requires Moves(c, c') && SingleDisk(c, id)
    ensures SingleDisk(c', id)
  {
    forall m, n | Attached(c', id, m) && Attached(c', id, n) ensures m == n {
      assert Stays(c, c', id, m) || Arrives(c, c', id, m);
      assert Stays(c, c', id, n) || Arrives(c, c', id, n);
    }
  }

  // ---------- every run ----------

  /** An attachment is from the start, under the name it had, or the driver's and to a live instance. */
  predicate OldOrOurs(c0: CloudState, c: CloudState, id: VolumeId, n: InstanceId) {
    Attached(c, id, n) ==>
    || (Attached(c0, id, n) && c.disks[id].attachments[n] == c0.disks[id].attachments[n])
    || (Ours(c, id, n) && n in c.instances)
  }

  ghost predicate AllOldOrOurs(c0: CloudState, c: CloudState) {
    forall id, n :: OldOrOurs(c0, c, id, n)
  }

  lemma MovesKeepOldOrOurs(c0: CloudState, c: CloudState, c': CloudState)
    requires Moves(c, c') && AllOldOrOurs(c0, c)
    ensures AllOldOrOurs(c0, c')
  {
    forall id, n ensures OldOrOurs(c0, c', id, n) {
      assert OldOrOurs(c0, c, id, n);
      assert Attached(c', id, n) ==> Stays(c, c', id, n) || Arrives(c, c', id, n);
    }
  }

  lemma {:induction false} RunsAreAttachable(w0: World, run: seq<Event>)
    requires Sound(w0.cloud)
    ensures Attachable(Exec(Start(w0), run)) && Disciplined(Exec(Start(w0), run))
  {
    RunsAreDisciplined(Start(w0), run);
    if run != [] {
      RunsAreAttachable(w0, run[..|run| - 1]);
      NextMoves(Exec(Start(w0), run[..|run| - 1]), run[|run| - 1]);
    }
  }

  /**
   No run attaches a disk to a second instance, although the cloud would let it; and every
   attachment that was not there at the start is the driver's, under the name derived from
   the id, to a live instance. The disk table may hold disks of any other origin.
   */
  lemma {:induction false} RunsKeepSingle(w0: World, run: seq<Event>)
    requires Sound(w0.cloud)
    ensures var c := Exec(Start(w0), run).world.cloud;
            && (forall id :: SingleDisk(w0.cloud, id) ==> SingleDisk(c, id))
            && AllOldOrOurs(w0.cloud, c)
  {
    if run != [] {
      var s, e := Exec(Start(w0), run[..|run| - 1]), run[|run| - 1];
      RunsKeepSingle(w0, run[..|run| - 1]);
      RunsAreAttachable(w0, run[..|run| - 1]);
      NextMoves(s, e);
      var c, c' := s.world.cloud, Next(s, e).world.cloud;
      hide Exec, Next, Moves, SingleDisk, AllOldOrOurs;
      forall id | SingleDisk(w0.cloud, id) ensures SingleDisk(c', id) { MovesKeepSingle(c, c', id); }
      MovesKeepOldOrOurs(w0.cloud, c, c');
    }
  }

  /**
   The theorem needs the calls for one volume to be serialized: for every detached disk, two
   publishes to different instances that both read before either attaches end with the disk
   attached to both.
   */
  lemma RacingPublishesAttachTwice(w: World, id: VolumeId, m: InstanceId, n: InstanceId, o: Oracle)
    requires id != [] && m != "" && n != "" && m != n && id !in w.locks
    requires id in w.cloud.disks && w.cloud.disks[id].attachments == map[]
    requires m in w.cloud.instances && n in w.cloud.instances
    requires o.firstRead && o.secondRead && o.fate == Acknowledged
    ensures var toM, toN := Publish(id, m, true, false), Publish(id, n, true, false);
            var vol := w.cloud.disks[id];
            && ReadsUpTo(w, toM, o, vol) && ReadsUpTo(w, toN, o, vol)
            && var w' := Step(Step(w, toM, o, CallAttach(vol)).0, toN, o, CallAttach(vol)).0;
            Attached(w'.cloud, id, m) && Attached(w'.cloud, id, n) && !Single(w'.cloud)
  {
    var toM, toN, vol := Publish(id, m, true, false), Publish(id, n, true, false), w.cloud.disks[id];
    var w' := Step(Step(w, toM, o, CallAttach(vol)).0, toN, o, CallAttach(vol)).0;
    assert Attached(w'.cloud, id, m) && Attached(w'.cloud, id, n);
    assert !SingleDisk(w'.cloud, id);
  }

  /** Without changing the world, the handler gets from its first step to the attach call. */
  ghost predicate ReadsUpTo(w: World, call: Call, o: Oracle, vol: Disk)
    requires call.Publish?
  {
    && Entry(call) == CheckLock && Step(w, call, o, CheckLock) == (w, GetDiskToPublish)
    && Step(w, call, o, GetDiskToPublish) == (w, GetInstanceToPublish(vol))
    && Step(w, call, o, GetInstanceToPublish(vol)) == (w, CallAttach(vol))
  }

  /** When a publish reports success the disk is attached to the node. */
  lemma PublishedMeansAttached(w: World, p: Proc)
    requires p.call.Publish? && Fits(p.call, p.pc) && !p.pc.Finished? && AttachPlanned(w.cloud, p)
    requires Step(w, p.call, p.oracle, p.pc).1.Finished? && Step(w, p.call, p.oracle, p.pc).1.reply.Published?
    ensures var c := Step(w, p.call, p.oracle, p.pc).0.cloud;
            Attached(c, p.call.id, p.call.node)
  {
  }

  // ---------- devices ----------

  /** No other disk on the instance has the disk's device name. */
  ghost predicate DistinctDevice(c: CloudState, id: VolumeId, n: InstanceId)
    requires Attached(c, id, n)
  {
    forall other :: Attached(c, other, n) && other != id ==> c.disks[other].attachments[n] != c.disks[id].attachments[n]
  }

  /** The disks a by-id link on the instance leads to. */
  function LinkTargets(c: CloudState, n: InstanceId, link: string): set<VolumeId> {
    set id | id in c.disks && n in c.disks[id].attachments && LinkOfName(c.disks[id].attachments[n]) == link
  }

  /** The by-id path of a disk the driver attached leads to all disks on the instance with its device name. */
  lemma LinkReaches(c: CloudState, n: InstanceId, id: VolumeId, other: VolumeId)
    requires Ours(c, id, n)
    ensures other in LinkTargets(c, n, ByIdPath(id)) <==>
            Attached(c, other, n) && c.disks[other].attachments[n] == c.disks[id].attachments[n]
  {
    if Attached(c, other, n) {
      LinkIdentifiesName(GenDiskId(id), c.disks[other].attachments[n]);
    }
  }

  lemma LinkResolves(c: CloudState, n: InstanceId, id: VolumeId)
    requires Attached(c, id, n)
    ensures LinkTargets(c, n, ByIdPath(id)) == {id} <==> Ours(c, id, n) && DistinctDevice(c, id, n)
  {
    if !Ours(c, id, n) {
      LinkIdentifiesName(GenDiskId(id), c.disks[id].attachments[n]);
      assert id !in LinkTargets(c, n, ByIdPath(id));
    } else {
      OurLinkResolves(c, n, id);
    }
  }

  lemma OurLinkResolves(c: CloudState, n: InstanceId, id: VolumeId)
    requires Ours(c, id, n)
    ensures DistinctDevice(c, id, n) <==> LinkTargets(c, n, ByIdPath(id)) == {id}
  {
    hide LinkTargets, GenDiskId, LinkOfName, ByIdPath;
    forall other ensures other in LinkTargets(c, n, ByIdPath(id)) <==>
                         Attached(c, other, n) && c.disks[other].attachments[n] == c.disks[id].attachments[n] {
      LinkReaches(c, n, id, other);
    }
    if DistinctDevice(c, id, n) {
      assert forall other :: other in LinkTargets(c, n, ByIdPath(id)) <==> other == id;
    }
  }

  /**
   In every run, whatever other disks an instance holds: the path the node computes from a
   volume id leads to exactly the disk attached for that id if and only if the disk has the
   derived device name and no other disk on the instance has it; and only a disk that was
   attached under another name from the start lacks it.
   */
  lemma DevicesResolve(w0: World, run: seq<Event>, id: VolumeId, n: InstanceId)
    requires Sound(w0.cloud) && Attached(Exec(Start(w0), run).world.cloud, id, n)
    ensures var c := Exec(Start(w0), run).world.cloud;
            && (LinkTargets(c, n, ByIdPath(id)) == {id} <==> Ours(c, id, n) && DistinctDevice(c, id, n))
            && (!Ours(c, id, n) ==> Attached(w0.cloud, id, n) && !Ours(w0.cloud, id, n))
  {
    RunsKeepSingle(w0, run);
    var c := Exec(Start(w0), run).world.cloud;
    assert OldOrOurs(w0.cloud, c, id, n);
    LinkResolves(c, n, id);
  }
}
