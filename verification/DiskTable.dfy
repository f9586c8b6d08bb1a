/** What every run does to the disk table: block sizes, sizes, names. */
module DiskTable {
  import opened Outcomes
  import opened DiskName
  import opened Capacity
  import opened Cloud
  import opened Handlers
  import opened System
  import Retry
  import BlockSize

  // ---------- sizes ----------

  /** A legal block size, and a size the cloud can give a disk of such blocks: at most 2^48. */
  predicate WellSized(d: Disk) {
    BlockSize.Legal(d.blockSize) && 0 < d.size <= d.blockSize * 0x8000_0000
  }

  /** From c to c': ids are never reused, a disk keeps its identity and never shrinks, and new disks are well sized. */
  ghost predicate TableGrows(c: CloudState, c': CloudState) {
    && c.usedIds <= c'.usedIds
    && (forall id :: id in c'.disks ==> id in c.disks || id !in c.usedIds)
    && (forall id :: id in c'.disks && id in c.disks ==>
          var d, d' := c.disks[id], c'.disks[id];
          && d'.name == d.name && d'.typeId == d.typeId && d'.zone == d.zone && d'.blockSize == d.blockSize
          && d.size <= d'.size && (WellSized(d) ==> WellSized(d')))
    && (forall id :: id in c'.disks && id !in c.disks ==> WellSized(c'.disks[id]))
  }

  lemma GrowthComposes(a: CloudState, b: CloudState, c: CloudState)
    requires Sound(a) && Sound(b) && TableGrows(a, b) && TableGrows(b, c)
    ensures TableGrows(a, c)
  {
    forall id | id in c.disks && id in a.disks ensures id in b.disks {
      assert id in a.usedIds && id in b.usedIds;
    }
  }

  /** What a handler about to change the table relies on. */
  ghost predicate SizePlanned(c: CloudState, p: Proc) {
    match p.pc
    case ListByName(plan) => p.call.Create? && PlanOf(p.call.request) == Ok(plan)
    case CallCreate(plan) => p.call.Create? && PlanOf(p.call.request) == Ok(plan)
    case CallUpdate(bytes) =>
      && p.call.Expand? && p.call.id in c.usedIds
      && (p.call.id in c.disks ==>
            && c.disks[p.call.id].size < bytes
            && ExtractStorage(p.call.range, MaximumVolumeSize(c.disks[p.call.id].EffectiveBlockSize())) == Some(bytes))
    case _ => true
  }

  ghost predicate SizesPlanned(s: Sys) {
    forall k :: k in s.procs ==> SizePlanned(s.world.cloud, s.procs[k])
  }

  lemma PlannedDiskIsWellSized(request: CreateRequest)
    requires PlanOf(request).Ok?
    ensures WellSized(PlanOf(request).value.NewDisk())
  {
    var plan := PlanOf(request).value;
    Retry.PlannedBlockSizeIsLegal(request);
    MaximumVolumeSizeExact(plan.blockSize);
    SelectionSpecified(request.range, MaximumVolumeSize(plan.blockSize));
  }

  lemma ExpandedDiskIsWellSized(d: Disk, range: Option<CapacityRange>)
    requires WellSized(d) && ExtractStorage(range, MaximumVolumeSize(d.EffectiveBlockSize())).Some?
    ensures WellSized(d.(size := ExtractStorage(range, MaximumVolumeSize(d.EffectiveBlockSize())).value))
  {
    MaximumVolumeSizeExact(d.blockSize);
    SelectionSpecified(range, MaximumVolumeSize(d.blockSize));
  }

  lemma SettleGrows(c: CloudState, m: Mutation, fate: Fate)
    requires Sound(c)
    requires m.CreateDisk? ==> WellSized(m.disk)
    requires m.UpdateSize? && m.id in c.disks ==>
               c.disks[m.id].size < m.size && (WellSized(c.disks[m.id]) ==> WellSized(c.disks[m.id].(size := m.size)))
    ensures TableGrows(c, Settle(c, m, fate).0)
  {
    match m
    case CreateDisk(_, _) =>
    case DeleteDisk(_) =>
    case AttachDisk(id, instance, name) =>
      if id in c.disks {
        ReplacedGrows(c, id, c.disks[id].(attachments := c.disks[id].attachments[instance := name]));
      }
    case DetachDisk(id, instance) =>
      if id in c.disks {
        ReplacedGrows(c, id, c.disks[id].(attachments := c.disks[id].attachments - {instance}));
      }
    case UpdateSize(id, size) =>
      if id in c.disks {
        ReplacedGrows(c, id, c.disks[id].(size := size));
      }
  }

  lemma ReplacedGrows(c: CloudState, id: VolumeId, d: Disk)
    requires id in c.disks
    requires var was := c.disks[id];
             && d.name == was.name && d.typeId == was.typeId && d.zone == was.zone && d.blockSize == was.blockSize
             && was.size <= d.size && (WellSized(was) ==> WellSized(d))
    ensures TableGrows(c, SetDisk(c, id, d)) && TableGrows(c, c)
  {
  }

  /** One step of a handler. */
  lemma StepGrows(w: World, p: Proc)
    requires Sound(w.cloud) && Fits(p.call, p.pc) && !p.pc.Finished? && SizePlanned(w.cloud, p)
    ensures var (w', pc') := Step(w, p.call, p.oracle, p.pc);
            TableGrows(w.cloud, w'.cloud) && SizePlanned(w'.cloud, p.(pc := pc'))
  {
    hide WellSized, Settle;
    assert TableGrows(w.cloud, w.cloud);
    match p.pc
    case CallCreate(plan) =>
      PlannedDiskIsWellSized(p.call.request);
      SettleGrows(w.cloud, CreateDisk(p.oracle.newId, plan.NewDisk()), p.oracle.fate);
    case CallUpdate(bytes) =>
      if p.call.id in w.cloud.disks && WellSized(w.cloud.disks[p.call.id]) {
        ExpandedDiskIsWellSized(w.cloud.disks[p.call.id], p.call.range);
      }
      SettleGrows(w.cloud, UpdateSize(p.call.id, bytes), p.oracle.fate);
    case CallDelete => SettleGrows(w.cloud, DeleteDisk(p.call.id), p.oracle.fate);
    case CallAttach(_) => SettleGrows(w.cloud, AttachDisk(p.call.id, p.call.node, GenDiskId(p.call.id)), p.oracle.fate);
    case CallDetach => SettleGrows(w.cloud, DetachDisk(p.call.id, p.call.node), p.oracle.fate);
    case _ =>
  }

  /** A step for one key leaves alone what a handler for another key relies on. */
  lemma OthersKeepTheirPlans(w: World, p: Proc, other: Proc)
    requires Sound(w.cloud) && Fits(p.call, p.pc) && !p.pc.Finished?
    requires SizePlanned(w.cloud, other) && KeyOf(other.call) != KeyOf(p.call)
    ensures SizePlanned(Step(w, p.call, p.oracle, p.pc).0.cloud, other)
  {
  }

  lemma NextGrows(s: Sys, e: Event)
    requires Disciplined(s) && SizesPlanned(s) && !e.OutsideResize?
    ensures TableGrows(s.world.cloud, Next(s, e).world.cloud) && SizesPlanned(Next(s, e))
  {
    if e.Advance? && InFlight(s, e.k) {
      var p, s' := s.procs[e.k], Next(s, e);
      StepGrows(s.world, p);
      forall k | k in s'.procs ensures SizePlanned(s'.world.cloud, s'.procs[k]) {
        if k != e.k && InFlight(s, k) {
          OthersKeepTheirPlans(s.world, p, s.procs[k]);
        }
      }
    } else if e.InstanceDown? {
      InstanceDownGrows(s, e.instance);
    }
  }

  lemma InstanceDownGrows(s: Sys, instance: InstanceId)
    requires Disciplined(s) && SizesPlanned(s)
    ensures TableGrows(s.world.cloud, WithoutInstance(s.world.cloud, instance))
    ensures SizesPlanned(Next(s, InstanceDown(instance)))
  {
  }

  lemma {:induction false} RunsGrow(s: Sys, run: seq<Event>)
    requires Disciplined(s) && SizesPlanned(s) && NoOutsideResize(run)
    ensures TableGrows(s.world.cloud, Exec(s, run).world.cloud) && SizesPlanned(Exec(s, run))
  {
    if run != [] {
      var before, e := run[..|run| - 1], run[|run| - 1];
      assert e in run;
      RunsGrow(s, before);
      RunsAreDisciplined(s, before);
      var m := Exec(s, before);
      NextGrows(m, e);
      NextKeepsDiscipline(m, e);
      GrowthComposes(s.world.cloud, m.world.cloud, Next(m, e).world.cloud);
    }
  }

  /**
   In every run without outside resizing, from the moment `run` has led to on: ids are not
   reused, no disk changes its block size or shrinks, disks the driver creates have a legal
   block size and 0 < size <= blockSize * 2^31 <= 2^48, and well-sized disks stay so.
   */
  lemma TableInvariant(w0: World, run: seq<Event>, more: seq<Event>)
    requires Sound(w0.cloud) && NoOutsideResize(run) && NoOutsideResize(more)
    ensures TableGrows(Exec(Start(w0), run).world.cloud, Exec(Exec(Start(w0), run), more).world.cloud)
    ensures forall d: Disk :: WellSized(d) ==>
              && d.size <= 0x1_0000_0000_0000
              && MaximumVolumeSize(d.EffectiveBlockSize()) == d.blockSize * 0x8000_0000
  {
    RunsGrow(Start(w0), run);
    RunsAreDisciplined(Start(w0), run);
    RunsGrow(Exec(Start(w0), run), more);
    forall d: Disk | WellSized(d)
      ensures d.size <= 0x1_0000_0000_0000 && MaximumVolumeSize(d.EffectiveBlockSize()) == d.blockSize * 0x8000_0000
    {
      MaximumVolumeSizeExact(d.blockSize);
    }
  }

  // ---------- identity, whatever happens from outside ----------

  /** A create acts on the plan of its request. */
  predicate PlanKnown(p: Proc) {
    p.call.Create? && (p.pc.ListByName? || p.pc.CallCreate?) ==> PlanOf(p.call.request) == Ok(p.pc.plan)
  }

  predicate PlansKnown(s: Sys) {
    forall k :: k in s.procs ==> PlanKnown(s.procs[k])
  }

  lemma NextKeepsPlans(s: Sys, e: Event)
    requires PlansKnown(s)
    ensures PlansKnown(Next(s, e))
  {
    if e.Advance? && InFlight(s, e.k) && Fits(s.procs[e.k].call, s.procs[e.k].pc) {
      assert PlanKnown(s.procs[e.k]);
      StepKeepsPlan(s.world, s.procs[e.k]);
      hide Step, PlanKnown;
    }
  }

  lemma {:induction false} PlansAreKnown(w0: World, run: seq<Event>)
    ensures PlansKnown(Exec(Start(w0), run))
  {
    if run != [] {
      PlansAreKnown(w0, run[..|run| - 1]);
      NextKeepsPlans(Exec(Start(w0), run[..|run| - 1]), run[|run| - 1]);
    }
  }

  lemma StepKeepsPlan(w: World, p: Proc)
    requires Fits(p.call, p.pc) && !p.pc.Finished? && PlanKnown(p)
    ensures PlanKnown(p.(pc := Step(w, p.call, p.oracle, p.pc).1))
  {
  }

  /** From c to c': ids are never reused, a disk keeps everything but its size and attachments, and new disks
      have a legal block size. */
  ghost predicate TableKeeps(c: CloudState, c': CloudState) {
    && c.usedIds <= c'.usedIds
    && (forall id :: id in c'.disks ==> id in c.disks || id !in c.usedIds)
    && (forall id :: id in c'.disks && id in c.disks ==> SameIdentity(c.disks[id], c'.disks[id]))
    && (forall id :: id in c'.disks && id !in c.disks ==> BlockSize.Legal(c'.disks[id].blockSize))
  }

  predicate SameIdentity(d: Disk, d': Disk) {
    d'.name == d.name && d'.typeId == d.typeId && d'.zone == d.zone && d'.blockSize == d.blockSize
  }

  lemma KeepingComposes(a: CloudState, b: CloudState, c: CloudState)
    requires Sound(a) && Sound(b) && TableKeeps(a, b) && TableKeeps(b, c)
    ensures TableKeeps(a, c)
  {
    forall id | id in c.disks && id in a.disks ensures id in b.disks && SameIdentity(a.disks[id], c.disks[id]) {
      assert id in a.usedIds && id in b.usedIds;
    }
  }

  lemma SettleKeepsTable(c: CloudState, m: Mutation, fate: Fate)
    requires Sound(c) && (m.CreateDisk? ==> BlockSize.Legal(m.disk.blockSize))
    ensures TableKeeps(c, Settle(c, m, fate).0)
  {
  }

  lemma StepKeepsTable(w: World, p: Proc)
    requires Sound(w.cloud) && Fits(p.call, p.pc) && !p.pc.Finished? && PlanKnown(p)
    ensures TableKeeps(w.cloud, Step(w, p.call, p.oracle, p.pc).0.cloud)
  {
    hide Settle;
    assert TableKeeps(w.cloud, w.cloud);
    match p.pc
    case CallCreate(plan) =>
      Retry.PlannedBlockSizeIsLegal(p.call.request);
      SettleKeepsTable(w.cloud, CreateDisk(p.oracle.newId, plan.NewDisk()), p.oracle.fate);
    case CallUpdate(bytes) => SettleKeepsTable(w.cloud, UpdateSize(p.call.id, bytes), p.oracle.fate);
    case CallDelete => SettleKeepsTable(w.cloud, DeleteDisk(p.call.id), p.oracle.fate);
    case CallAttach(_) =>
      SettleKeepsTable(w.cloud, AttachDisk(p.call.id, p.call.node, GenDiskId(p.call.id)), p.oracle.fate);
    case CallDetach => SettleKeepsTable(w.cloud, DetachDisk(p.call.id, p.call.node), p.oracle.fate);
    case _ =>
  }

  lemma NextKeepsTable(s: Sys, e: Event)
    requires Disciplined(s) && PlansKnown(s)
    ensures TableKeeps(s.world.cloud, Next(s, e).world.cloud)
  {
    if e.Advance? && InFlight(s, e.k) {
      StepKeepsTable(s.world, s.procs[e.k]);
    }
  }

  lemma {:induction false} RunsKeepTable(s: Sys, run: seq<Event>)
    requires Disciplined(s) && PlansKnown(s)
    ensures PlansKnown(Exec(s, run)) && TableKeeps(s.world.cloud, Exec(s, run).world.cloud)
  {
    if run != [] {
      var before, e := run[..|run| - 1], run[|run| - 1];
      RunsKeepTable(s, before);
      RunsAreDisciplined(s, before);
      var m := Exec(s, before);
      NextKeepsTable(m, e);
      NextKeepsPlans(m, e);
      hide Next, Exec, TableKeeps, PlansKnown, Disciplined;
      KeepingComposes(s.world.cloud, m.world.cloud, Next(m, e).world.cloud);
    }
  }

  /**
   In every run, with disks resized from outside and instances that disappear, from the moment
   `run` has led to on: ids are not reused, no disk changes its name, type, zone or block size,
   and disks the driver creates have a legal block size.
   */
  lemma IdentityInvariant(w0: World, run: seq<Event>, more: seq<Event>)
    requires Sound(w0.cloud)
    ensures TableKeeps(Exec(Start(w0), run).world.cloud, Exec(Exec(Start(w0), run), more).world.cloud)
  {
    PlansAreKnown(w0, run);
    RunsAreDisciplined(Start(w0), run);
    RunsKeepTable(Exec(Start(w0), run), more);
  }

  // ---------- names ----------

  predicate UniqueNames(c: CloudState) {
    forall id, other :: id in c.disks && other in c.disks && c.disks[id].name == c.disks[other].name ==> id == other
  }

  /** The name a create is about to use is its own, and no disk has it. */
  ghost predicate NameAvailable(c: CloudState, p: Proc) {
    && (p.pc.ListByName? ==> p.call.Create? && p.pc.plan.name == p.call.request.name)
    && (p.pc.CallCreate? ==>
          && p.call.Create? && p.pc.plan.name == p.call.request.name
          && forall id :: id in c.disks ==> c.disks[id].name != p.pc.plan.name)
  }

  ghost predicate NamesAvailable(s: Sys) {
    UniqueNames(s.world.cloud) && forall k :: k in s.procs ==> NameAvailable(s.world.cloud, s.procs[k])
  }

  lemma EmptyListing(c: CloudState, name: string)
    ensures ByName(c, name) == {} <==> forall id :: id in c.disks ==> c.disks[id].name != name
  {
    forall id | id in c.disks && c.disks[id].name == name ensures ByName(c, name) != {} {
      assert id in ByName(c, name);
    }
  }

  lemma SettleKeepsNames(c: CloudState, m: Mutation, fate: Fate)
    requires Sound(c) && UniqueNames(c)
    requires m.CreateDisk? ==> forall id :: id in c.disks ==> c.disks[id].name != m.disk.name
    ensures UniqueNames(Settle(c, m, fate).0)
  {
  }

  lemma StepKeepsNames(w: World, p: Proc)
    requires Sound(w.cloud) && Fits(p.call, p.pc) && !p.pc.Finished?
    requires UniqueNames(w.cloud) && NameAvailable(w.cloud, p)
    ensures var (w', pc') := Step(w, p.call, p.oracle, p.pc);
            UniqueNames(w'.cloud) && NameAvailable(w'.cloud, p.(pc := pc'))
  {
    hide Settle, UniqueNames;
    match p.pc
    case ListByName(plan) => EmptyListing(w.cloud, plan.name);
    case CallCreate(plan) => SettleKeepsNames(w.cloud, CreateDisk(p.oracle.newId, plan.NewDisk()), p.oracle.fate);
    case CallDelete => SettleKeepsNames(w.cloud, DeleteDisk(p.call.id), p.oracle.fate);
    case CallAttach(_) =>
      SettleKeepsNames(w.cloud, AttachDisk(p.call.id, p.call.node, GenDiskId(p.call.id)), p.oracle.fate);
    case CallDetach => SettleKeepsNames(w.cloud, DetachDisk(p.call.id, p.call.node), p.oracle.fate);
    case CallUpdate(bytes) => SettleKeepsNames(w.cloud, UpdateSize(p.call.id, bytes), p.oracle.fate);
    case _ =>
  }

  lemma OthersKeepTheirNames(w: World, p: Proc, other: Proc)
    requires Fits(p.call, p.pc) && !p.pc.Finished? && NameAvailable(w.cloud, p)
    requires NameAvailable(w.cloud, other) && KeyOf(other.call) != KeyOf(p.call)
    ensures NameAvailable(Step(w, p.call, p.oracle, p.pc).0.cloud, other)
  {
  }

  lemma NextKeepsNames(s: Sys, e: Event)
    requires Disciplined(s) && NamesAvailable(s)
    ensures NamesAvailable(Next(s, e))
  {
    if e.Advance? && InFlight(s, e.k) {
      var p, s' := s.procs[e.k], Next(s, e);
      StepKeepsNames(s.world, p);
      forall k | k in s'.procs ensures NameAvailable(s'.world.cloud, s'.procs[k]) {
        if k != e.k && InFlight(s, k) {
          OthersKeepTheirNames(s.world, p, s.procs[k]);
        }
      }
    }
  }

  /** At most one disk per name, whatever the interleaving, the lost replies and the outside events. */
  lemma {:induction false} NamesStayUnique(w0: World, run: seq<Event>)
    requires Sound(w0.cloud) && UniqueNames(w0.cloud)
    ensures UniqueNames(Exec(Start(w0), run).world.cloud) && NamesAvailable(Exec(Start(w0), run))
  {
    if run != [] {
      NamesStayUnique(w0, run[..|run| - 1]);
      RunsAreDisciplined(Start(w0), run[..|run| - 1]);
      NextKeepsNames(Exec(Start(w0), run[..|run| - 1]), run[|run| - 1]);
    }
  }
}
