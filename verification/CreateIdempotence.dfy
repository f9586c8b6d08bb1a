/** A repeated CreateVolume answers as it did before, and one that asks for something else is refused. */
module CreateIdempotence {
  import opened Outcomes
  import opened DiskName
  import opened Cloud
  import opened Handlers
  import opened System
  import DiskTable
  import Retry

  /** The run neither deletes nor resizes this disk. */
  predicate SparesDisk(run: seq<Event>, id: VolumeId) {
    forall e :: e in run ==>
      && (e.Begin? ==> !((e.call.Delete? || e.call.Expand?) && e.call.id == id))
      && (e.OutsideResize? ==> e.id != id)
  }

  /** The one disk of this name, as far as CreateVolume looks at it. */
  ghost predicate Holds(c: CloudState, id: VolumeId, d: Disk) {
    && ByName(c, d.name) == {id}
    && c.disks[id].size == d.size && c.disks[id].blockSize == d.blockSize && c.disks[id].zone == d.zone
  }

  /** No handler is about to change that. */
  ghost predicate Harmless(p: Proc, id: VolumeId, d: Disk) {
    && ((p.call.Delete? || p.call.Expand?) && p.call.id == id ==> p.pc.Finished?)
    && (p.pc.ListByName? ==> p.call.Create?)
    && (p.pc.CallCreate? ==> p.call.Create? && p.pc.plan.name != d.name)
  }

  ghost predicate Kept(s: Sys, id: VolumeId, d: Disk) {
    Holds(s.world.cloud, id, d) && forall k :: k in s.procs ==> Harmless(s.procs[k], id, d)
  }

  lemma SettleHolds(c: CloudState, m: Mutation, fate: Fate, id: VolumeId, d: Disk)
    requires Sound(c) && Holds(c, id, d)
    requires m.CreateDisk? ==> m.disk.name != d.name
    requires m.DeleteDisk? || m.UpdateSize? ==> m.id != id
    ensures Holds(Settle(c, m, fate).0, id, d)
  {
    var c' := Settle(c, m, fate).0;
    assert id in ByName(c, d.name);
    forall other | other in ByName(c', d.name) ensures other == id {
      assert other in c.disks && other in ByName(c, d.name);
    }
    assert id in ByName(c', d.name);
  }

  lemma StepHolds(w: World, p: Proc, id: VolumeId, d: Disk)
    requires Sound(w.cloud) && Fits(p.call, p.pc) && !p.pc.Finished? && Holds(w.cloud, id, d) && Harmless(p, id, d)
    ensures var (w', pc') := Step(w, p.call, p.oracle, p.pc);
            Holds(w'.cloud, id, d) && Harmless(p.(pc := pc'), id, d)
  {
    hide Settle, Holds;
    match p.pc
    case ListByName(plan) => ListingFindsIt(w, plan, id, d);
    case CallCreate(plan) => SettleHolds(w.cloud, CreateDisk(p.oracle.newId, plan.NewDisk()), p.oracle.fate, id, d);
    case CallDelete => SettleHolds(w.cloud, DeleteDisk(p.call.id), p.oracle.fate, id, d);
    case CallAttach(_) =>
      SettleHolds(w.cloud, AttachDisk(p.call.id, p.call.node, GenDiskId(p.call.id)), p.oracle.fate, id, d);
    case CallDetach => SettleHolds(w.cloud, DetachDisk(p.call.id, p.call.node), p.oracle.fate, id, d);
    case CallUpdate(bytes) => SettleHolds(w.cloud, UpdateSize(p.call.id, bytes), p.oracle.fate, id, d);
    case _ =>
  }

  lemma ListingFindsIt(w: World, plan: Plan, id: VolumeId, d: Disk)
    requires Holds(w.cloud, id, d)
    ensures plan.name == d.name ==> ByName(w.cloud, plan.name) != {}
  {
  }

  lemma NextKeepsDisk(s: Sys, e: Event, id: VolumeId, d: Disk)
    requires Disciplined(s) && Kept(s, id, d) && SparesDisk([e], id)
    ensures Kept(Next(s, e), id, d)
  {
    assert e in [e];
    match e
    case Advance(k) =>
      if InFlight(s, k) {
        StepHolds(s.world, s.procs[k], id, d);
      }
    case InstanceDown(instance) =>
      assert ByName(WithoutInstance(s.world.cloud, instance), d.name) == ByName(s.world.cloud, d.name);
    case OutsideResize(other, size) =>
      assert ByName(Next(s, e).world.cloud, d.name) == ByName(s.world.cloud, d.name);
    case _ =>
  }

  lemma {:induction false} RunsKeepDisk(s: Sys, run: seq<Event>, id: VolumeId, d: Disk)
    requires Disciplined(s) && Kept(s, id, d) && SparesDisk(run, id)
    ensures Kept(Exec(s, run), id, d)
  {
    if run != [] {
      var before, e := run[..|run| - 1], run[|run| - 1];
      assert e in run;
      RunsKeepDisk(s, before, id, d);
      RunsAreDisciplined(s, before);
      NextKeepsDisk(Exec(s, before), e, id, d);
    }
  }

  // ---------- the moment a create returns ----------

  /** The next step of create call k returns with success. */
  ghost predicate Returns(s: Sys, k: nat) {
    && InFlight(s, k) && s.procs[k].call.Create? && Fits(s.procs[k].call, s.procs[k].pc)
    && Next(s, Advance(k)).procs[k].pc.Finished? && Next(s, Advance(k)).procs[k].pc.reply.Created?
  }

  ghost function ReplyOf(s: Sys, k: nat): Reply
    requires Returns(s, k)
  {
    Next(s, Advance(k)).procs[k].pc.reply
  }

  /** No call in flight deletes or resizes this disk. */
  predicate NotTargeted(s: Sys, id: VolumeId) {
    forall k :: k in s.procs && InFlight(s, k) ==>
      !((s.procs[k].call.Delete? || s.procs[k].call.Expand?) && s.procs[k].call.id == id)
  }

  /** Whether it was found or made: the disk is the one of its name and as planned. */
  lemma CreatedIsThere(w: World, p: Proc)
    requires Sound(w.cloud) && p.call.Create? && Fits(p.call, p.pc) && !p.pc.Finished?
    requires DiskTable.PlanKnown(p) && DiskTable.NameAvailable(w.cloud, p)
    requires var pc := Step(w, p.call, p.oracle, p.pc).1; pc.Finished? && pc.reply.Created?
    ensures var (w', pc) := Step(w, p.call, p.oracle, p.pc);
            Retry.Done(w'.cloud, p.call, pc.reply)
  {
    var plan := PlanOf(p.call.request).value;
    var w' := Step(w, p.call, p.oracle, p.pc).0;
    Retry.PlannedBlockSizeIsLegal(p.call.request);
    if p.pc.CallCreate? {
      DiskTable.EmptyListing(w.cloud, plan.name);
      Retry.NewNameIsUnique(w.cloud, w'.cloud, p.oracle.newId, plan);
    }
  }

  /** From that moment on a run that leaves the disk alone keeps it as it was. */
  lemma CreatedIsKept(w0: World, before: seq<Event>, k: nat, run: seq<Event>)
    requires Sound(w0.cloud) && DiskTable.UniqueNames(w0.cloud)
    requires var s := Exec(Start(w0), before);
             Returns(s, k) && NotTargeted(s, ReplyOf(s, k).id) && SparesDisk(run, ReplyOf(s, k).id)
    ensures var s := Exec(Start(w0), before);
            var (c, id) := (Next(s, Advance(k)).world.cloud, ReplyOf(s, k).id);
            && Retry.Done(c, s.procs[k].call, ReplyOf(s, k))
            && id in c.disks && c.disks[id].name == s.procs[k].call.request.name
            && Holds(Exec(Next(s, Advance(k)), run).world.cloud, id, c.disks[id])
  {
    var s := Exec(Start(w0), before);
    var s', p := Next(s, Advance(k)), s.procs[k];
    RunsAreDisciplined(Start(w0), before);
    DiskTable.NamesStayUnique(w0, before);
    DiskTable.PlansAreKnown(w0, before);
    CreatedIsThere(s.world, p);
    NextKeepsDiscipline(s, Advance(k));
    var id := ReplyOf(s, k).id;
    DoneNamesDisk(s'.world.cloud, p.call, ReplyOf(s, k));
    var d := s'.world.cloud.disks[id];
    forall j | j in s'.procs ensures Harmless(s'.procs[j], id, d) {
      if j != k { OtherIsHarmless(s, k, j, id, d); }
    }
    hide Exec, Next;
    RunsKeepDisk(s', run, id, d);
  }

  lemma DoneNamesDisk(c: CloudState, call: Call, reply: Reply)
    requires call.Create? && Retry.Done(c, call, reply)
    ensures reply.id in c.disks && c.disks[reply.id].name == call.request.name
    ensures Holds(c, reply.id, c.disks[reply.id])
  {
    assert reply.id in ByName(c, PlanOf(call.request).value.name);
  }

  lemma OtherIsHarmless(s: Sys, k: nat, j: nat, id: VolumeId, d: Disk)
    requires Disciplined(s) && InFlight(s, k) && s.procs[k].call.Create? && d.name == s.procs[k].call.request.name
    requires j in s.procs && j != k && DiskTable.NameAvailable(s.world.cloud, s.procs[j]) && NotTargeted(s, id)
    ensures Harmless(s.procs[j], id, d)
  {
    assert InFlight(s, j) ==> KeyOf(s.procs[j].call) != KeyOf(s.procs[k].call);
  }

  /**
   After a create that returned success in the middle of any run, and any run from there that
   neither deletes nor resizes the disk: the same create gives the same id, capacity and
   topology and changes nothing, and a create of the same name with another size or block
   size is refused.
   */
  lemma RepeatedCreate(w0: World, before: seq<Event>, k: nat, run: seq<Event>, again: CreateRequest, o: Oracle)
    requires Sound(w0.cloud) && DiskTable.UniqueNames(w0.cloud)
    requires var s := Exec(Start(w0), before);
             Returns(s, k) && NotTargeted(s, ReplyOf(s, k).id) && SparesDisk(run, ReplyOf(s, k).id)
             && again.name == s.procs[k].call.request.name
    requires o.firstRead && PlanOf(again).Ok?
    ensures var s := Exec(Start(w0), before);
            var (request, reply) := (s.procs[k].call.request, ReplyOf(s, k));
            && PlanOf(request).Ok?
            && var w := Exec(Next(s, Advance(k)), run).world;
            var (plan, plan') := (PlanOf(request).value, PlanOf(again).value);
            && Solo(w, Create(again), o).0 == w
            && (Solo(w, Create(again), o).1.Created? <==> plan'.size == plan.size && plan'.blockSize == plan.blockSize)
            && (again == request ==> Solo(w, Create(again), o).1 == reply)
            && (!Solo(w, Create(again), o).1.Created? ==> Solo(w, Create(again), o).1 == Failed(AlreadyExists))
  {
    CreatedIsKept(w0, before, k, run);
    var s := Exec(Start(w0), before);
    var id := ReplyOf(s, k).id;
    var w := Exec(Next(s, Advance(k)), run).world;
    AnswerFromTable(w, again, o, id, Next(s, Advance(k)).world.cloud.disks[id]);
    hide Exec, Next, Solo;
  }

  lemma AnswerFromTable(w: World, request: CreateRequest, o: Oracle, id: VolumeId, d: Disk)
    requires Holds(w.cloud, id, d) && PlanOf(request).Ok? && request.name == d.name && o.firstRead
    ensures Solo(w, Create(request), o) == (w, ReuseReply(w.cloud.disks[id], id, PlanOf(request).value))
  {
    var plan := PlanOf(request).value;
    assert ByName(w.cloud, plan.name) == {id};
    Unfold(w, Create(request), o, ListByName(plan));
  }

  /** Expanding a new volume with the range it was created with finds nothing to do, as long as nothing resizes it. */
  lemma ExpandAsCreated(w0: World, before: seq<Event>, k: nat, run: seq<Event>, block: bool, o: Oracle)
    requires Sound(w0.cloud) && DiskTable.UniqueNames(w0.cloud)
    requires var s := Exec(Start(w0), before);
             Returns(s, k) && NotTargeted(s, ReplyOf(s, k).id)
             && SparesDisk(run, ReplyOf(s, k).id) && ReplyOf(s, k).id != []
    requires o.firstRead
    ensures var s := Exec(Start(w0), before);
            var w := Exec(Next(s, Advance(k)), run).world;
            Solo(w, Expand(ReplyOf(s, k).id, s.procs[k].call.request.range, block), o)
            == (w, Expanded(ReplyOf(s, k).capacity, true))
  {
    CreatedIsKept(w0, before, k, run);
    var s := Exec(Start(w0), before);
    var reply := ReplyOf(s, k);
    var w := Exec(Next(s, Advance(k)), run).world;
    hide Exec, Next, Returns;
    assert reply.id in ByName(w.cloud, s.procs[k].call.request.name);
    Unfold(w, Expand(reply.id, s.procs[k].call.request.range, block), o, GetDiskToExpand);
  }
}
