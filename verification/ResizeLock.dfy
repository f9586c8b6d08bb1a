/** The lock map: what it records, when a lock can be cleared, and when it cannot. */
module ResizeLock {
  import opened Outcomes
  import opened DiskName
  import opened Capacity
  import opened Cloud
  import opened Handlers
  import opened System
  import DiskTable
  import Answers
  import Retry

  // ---------- the lock map refines the history ----------

  /** The range of the latest update of this volume to end in a verdict, if that verdict was a rejection. */
  function LastRejection(records: seq<Record>, id: VolumeId): Option<Option<CapacityRange>> {
    if records == [] then None
    else match records[|records| - 1]
      case UpdateAcknowledged(other) =>
        if other == id then None else LastRejection(records[..|records| - 1], id)
      case UpdateRejected(other, range) =>
        if other == id then Some(range) else LastRejection(records[..|records| - 1], id)
      case _ => LastRejection(records[..|records| - 1], id)
  }

  /** The latest verdict was a rejection. */
  predicate Rejected(records: seq<Record>, id: VolumeId) {
    LastRejection(records, id).Some?
  }

  /** No attach call was issued for a volume between a rejection and the next acknowledged update. */
  predicate AttachesUnlocked(records: seq<Record>) {
    forall i :: 0 <= i < |records| && records[i].AttachIssued? ==> !Rejected(records[..i], records[i].id)
  }

  lemma RecordsGrow(records: seq<Record>, r: Record)
    ensures AttachesUnlocked(records) && (r.AttachIssued? ==> !Rejected(records, r.id)) ==>
              AttachesUnlocked(records + [r])
    ensures forall id :: LastRejection(records + [r], id) ==
              if r == UpdateAcknowledged(id) then None
              else if r.UpdateRejected? && r.id == id then Some(r.range)
              else LastRejection(records, id)
  {
    var longer := records + [r];
    assert longer[..|longer| - 1] == records;
    forall i | 0 <= i < |records| ensures longer[..i] == records[..i] {
    }
  }

  /** What a handler knows about the history of its volume. */
  predicate HistoryKnown(records: seq<Record>, p: Proc) {
    && (p.pc.PutLock? ==> p.call.Expand? && Rejected(records, p.call.id))
    && (p.pc.RemoveLock? ==> p.call.Expand? && !Rejected(records, p.call.id))
    && (p.pc.GetDiskToPublish? || p.pc.GetInstanceToPublish? || p.pc.CallAttach? ==>
          p.call.Publish? && !Rejected(records, p.call.id))
  }

  ghost predicate Refines(s: Sys) {
    && (forall id :: !PendingWrite(s, id) ==> (id in s.world.locks <==> Rejected(s.records, id)))
    && (forall k :: k in s.procs ==> HistoryKnown(s.records, s.procs[k]))
    && AttachesUnlocked(s.records)
  }

  /** The lock of the volume agrees with its history, or the call is about to make it so. */
  predicate LockAgrees(w: World, records: seq<Record>, p: Proc) {
    p.call.Create? || LockWriter(p, p.call.id) || (p.call.id in w.locks <==> Rejected(records, p.call.id))
  }

  lemma StepRefines(w: World, records: seq<Record>, p: Proc)
    requires Fits(p.call, p.pc) && !p.pc.Finished?
    requires AttachesUnlocked(records) && HistoryKnown(records, p) && LockAgrees(w, records, p)
    ensures var (w', pc') := Step(w, p.call, p.oracle, p.pc);
            var records', p' := records + Recorded(w, p.call, p.oracle, p.pc), p.(pc := pc');
            && AttachesUnlocked(records') && HistoryKnown(records', p') && LockAgrees(w', records', p')
            && (forall id :: IdKey(id) != KeyOf(p.call) ==>
                  (Rejected(records', id) <==> Rejected(records, id)) && (id in w'.locks <==> id in w.locks))
  {
    hide Settle, AttachesUnlocked, LastRejection;
    var added := Recorded(w, p.call, p.oracle, p.pc);
    if added == [] {
      assert records + added == records;
    } else {
      RecordsGrow(records, added[0]);
    }
  }

  /** No lock write is pending for the volume of a call in flight, but its own. */
  lemma NoOtherWriter(s: Sys, k: nat)
    requires Disciplined(s) && InFlight(s, k) && !s.procs[k].call.Create? && !LockWriter(s.procs[k], s.procs[k].call.id)
    ensures !PendingWrite(s, s.procs[k].call.id)
  {
    forall j | j in s.procs && InFlight(s, j) && j != k ensures !LockWriter(s.procs[j], s.procs[k].call.id) {
    }
  }

  lemma AdvanceRefines(s: Sys, k: nat)
    requires Disciplined(s) && Refines(s) && InFlight(s, k)
    ensures Refines(AdvanceCall(s, k))
  {
    var p, s' := s.procs[k], AdvanceCall(s, k);
    if !p.call.Create? && !LockWriter(p, p.call.id) {
      NoOtherWriter(s, k);
    }
    StepRefines(s.world, s.records, p);
    hide Step, Rejected, AttachesUnlocked;
    forall j | j in s.procs && j != k ensures HistoryKnown(s'.records, s'.procs[j]) {
      assert HistoryKnown(s.records, s.procs[j]);
      assert InFlight(s, j) ==> KeyOf(s.procs[j].call) != KeyOf(p.call);
    }
    forall id | !PendingWrite(s', id) ensures id in s'.world.locks <==> Rejected(s'.records, id) {
      assert !LockWriter(s'.procs[k], id);
      if IdKey(id) != KeyOf(p.call) {
        OtherWritersStay(s, s', k, id);
      }
    }
  }

  lemma OtherWritersStay(s: Sys, s': Sys, k: nat, id: VolumeId)
    requires k in s.procs && s'.procs.Keys == s.procs.Keys && IdKey(id) != KeyOf(s.procs[k].call)
    requires forall j :: j in s.procs && j != k ==> s'.procs[j] == s.procs[j]
    ensures PendingWrite(s, id) ==> PendingWrite(s', id)
  {
    if PendingWrite(s, id) {
      var j :| j in s.procs && LockWriter(s.procs[j], id);
      assert LockWriter(s'.procs[j], id);
    }
  }

  lemma NextRefines(s: Sys, e: Event)
    requires Disciplined(s) && Refines(s)
    ensures Refines(Next(s, e))
  {
    match e
    case Advance(k) => if InFlight(s, k) { AdvanceRefines(s, k); }
    case Begin(k, call, o) =>
      if k !in s.procs && Free(s, KeyOf(call)) {
        var s' := BeginCall(s, k, call, o);
        forall id | PendingWrite(s, id) ensures PendingWrite(s', id) {
          var j :| j in s.procs && LockWriter(s.procs[j], id);
          assert LockWriter(s'.procs[j], id);
        }
      }
    case _ =>
      forall id ensures PendingWrite(Next(s, e), id) <==> PendingWrite(s, id) { }
  }

  /**
   From a driver start, in every run: a volume with no lock write pending is locked exactly
   when the latest of its updates to end acknowledged or rejected was rejected, and between
   a rejection and the next acknowledgement no attach call for it is issued to any node.
   */
  lemma {:induction false} LockMapRefinesHistory(w0: World, run: seq<Event>)
    requires Sound(w0.cloud) && w0.locks == {}
    ensures var s := Exec(Start(w0), run);
            && Refines(s)
            && (forall id :: !PendingWrite(s, id) ==> (id in s.world.locks <==> Rejected(s.records, id)))
            && AttachesUnlocked(s.records)
  {
    if run != [] {
      LockMapRefinesHistory(w0, run[..|run| - 1]);
      RunsAreDisciplined(Start(w0), run[..|run| - 1]);
      NextRefines(Exec(Start(w0), run[..|run| - 1]), run[|run| - 1]);
    } else {
      forall id ensures !PendingWrite(Start(w0), id) { }
    }
  }

  // ---------- the size of a locked disk ----------

  /** The disk is smaller than what the range asks of it. */
  predicate Exceeds(range: Option<CapacityRange>, d: Disk) {
    var bytes := ExtractStorage(range, MaximumVolumeSize(d.EffectiveBlockSize()));
    bytes.Some? && d.size < bytes.value
  }

  /** The size set by the latest hidden update of this volume since its latest verdict; 0 if there was none. */
  function HiddenSize(records: seq<Record>, id: VolumeId): int {
    if records == [] then 0
    else match records[|records| - 1]
      case UpdateAcknowledged(other) => if other == id then 0 else HiddenSize(records[..|records| - 1], id)
      case UpdateRejected(other, _) => if other == id then 0 else HiddenSize(records[..|records| - 1], id)
      case UpdateHidden(other, size) => if other == id then size else HiddenSize(records[..|records| - 1], id)
      case AttachIssued(_, _) => HiddenSize(records[..|records| - 1], id)
  }

  lemma HiddenSizeGrows(records: seq<Record>, r: Record)
    ensures forall id :: HiddenSize(records + [r], id) ==
              if r.UpdateHidden? && r.id == id then r.size
              else if r == UpdateAcknowledged(id) || (r.UpdateRejected? && r.id == id) then 0
              else HiddenSize(records, id)
  {
    assert (records + [r])[..|records + [r]| - 1] == records;
  }

  /** A rejected request asks for more than the disk had then, and only hidden updates can have changed that. */
  predicate SizeFollows(records: seq<Record>, id: VolumeId, d: Disk)
    requires Rejected(records, id)
  {
    var bytes := ExtractStorage(LastRejection(records, id).value, MaximumVolumeSize(d.EffectiveBlockSize()));
    && bytes.Some? && bytes.value > 0
    && if HiddenSize(records, id) == 0 then d.size < bytes.value else d.size == HiddenSize(records, id)
  }

  predicate Follows(c: CloudState, records: seq<Record>, id: VolumeId) {
    Rejected(records, id) ==> id in c.usedIds && (id in c.disks ==> SizeFollows(records, id, c.disks[id]))
  }

  ghost predicate SizesFollow(s: Sys) {
    forall id :: Follows(s.world.cloud, s.records, id)
  }

  lemma AdvanceFollows(s: Sys, k: nat)
    requires Disciplined(s) && DiskTable.SizesPlanned(s) && SizesFollow(s) && InFlight(s, k)
    ensures SizesFollow(AdvanceCall(s, k))
  {
    assert DiskTable.SizePlanned(s.world.cloud, s.procs[k]);
    forall id ensures Follows(AdvanceCall(s, k).world.cloud, AdvanceCall(s, k).records, id) {
      assert Follows(s.world.cloud, s.records, id);
      StepFollows(s.world, s.records, s.procs[k], id);
    }
  }

  lemma StepFollows(w: World, records: seq<Record>, p: Proc, id: VolumeId)
    requires Sound(w.cloud) && Fits(p.call, p.pc) && !p.pc.Finished? && DiskTable.SizePlanned(w.cloud, p)
    requires Follows(w.cloud, records, id)
    ensures Follows(Step(w, p.call, p.oracle, p.pc).0.cloud, records + Recorded(w, p.call, p.oracle, p.pc), id)
  {
    var added := Recorded(w, p.call, p.oracle, p.pc);
    StepKeepsSizes(w, p);
    if p.pc.CallUpdate? {
      PlannedIsPositive(p.call.range, p.pc.bytes);
    }
    hide Step, Settle, LastRejection, HiddenSize, ExtractStorage;
    if added == [] {
      assert records + added == records;
    } else {
      RecordsGrow(records, added[0]);
      HiddenSizeGrows(records, added[0]);
    }
  }

  lemma PlannedIsPositive(range: Option<CapacityRange>, bytes: int)
    ensures forall maximum :: ExtractStorage(range, maximum) == Some(bytes) ==> bytes > 0
  {
  }

  /** A size changes only in an update that is acknowledged or hidden. */
  lemma StepKeepsSizes(w: World, p: Proc)
    requires Sound(w.cloud) && Fits(p.call, p.pc) && !p.pc.Finished?
    requires p.pc.CallUpdate? ==> p.call.id in w.cloud.usedIds
    ensures var w' := Step(w, p.call, p.oracle, p.pc).0;
            var added := Recorded(w, p.call, p.oracle, p.pc);
            && w.cloud.usedIds <= w'.cloud.usedIds
            && (forall id :: id in w'.cloud.disks && id in w.cloud.usedIds ==>
                  && id in w.cloud.disks
                  && w'.cloud.disks[id].blockSize == w.cloud.disks[id].blockSize
                  && (added in {[UpdateAcknowledged(id)], [UpdateHidden(id, w'.cloud.disks[id].size)]}
                      || w'.cloud.disks[id].size == w.cloud.disks[id].size))
            && (added != [] && added[0].UpdateHidden? && p.call.id in w'.cloud.disks ==>
                  w'.cloud.disks[p.call.id].size == p.pc.bytes)
            && (added != [] && added[0].UpdateRejected? ==> w'.cloud == w.cloud && p.call.id in w.cloud.disks)
  {
  }

  lemma {:induction false} RunsFollow(w0: World, run: seq<Event>)
    requires Sound(w0.cloud) && w0.locks == {} && NoOutsideResize(run)
    ensures SizesFollow(Exec(Start(w0), run))
  {
    if run != [] {
      var before, e := run[..|run| - 1], run[|run| - 1];
      assert e in run;
      RunsFollow(w0, before);
      RunsAreDisciplined(Start(w0), before);
      DiskTable.RunsGrow(Start(w0), before);
      var s := Exec(Start(w0), before);
      if e.Advance? && InFlight(s, e.k) {
        AdvanceFollows(s, e.k);
      } else {
        NoSizeMoves(s, e);
      }
    }
  }

  lemma NoSizeMoves(s: Sys, e: Event)
    requires SizesFollow(s) && !e.OutsideResize? && !(e.Advance? && InFlight(s, e.k))
    ensures SizesFollow(Next(s, e))
  {
    hide LastRejection, HiddenSize, ExtractStorage;
    forall id ensures Follows(Next(s, e).world.cloud, Next(s, e).records, id) {
      assert Follows(s.world.cloud, s.records, id);
    }
  }

  /**
   In every run from a driver start without outside resizing: the request last rejected for a
   volume no longer asks for more than the disk has, so that repeating it cannot clear the
   lock, exactly when an update of that volume since then was executed with its reply lost
   and the latest such update made the disk at least as large as the rejected request asks.
   */
  lemma StrandedExactly(w0: World, run: seq<Event>, id: VolumeId)
    requires Sound(w0.cloud) && w0.locks == {} && NoOutsideResize(run)
    requires var s := Exec(Start(w0), run); Rejected(s.records, id) && id in s.world.cloud.disks
    ensures var s := Exec(Start(w0), run);
            var (d, range) := (s.world.cloud.disks[id], LastRejection(s.records, id).value);
            var bytes := ExtractStorage(range, MaximumVolumeSize(d.EffectiveBlockSize()));
            && bytes.Some?
            && (!Exceeds(range, d) <==> HiddenSize(s.records, id) >= bytes.value)
  {
    RunsFollow(w0, run);
    var s := Exec(Start(w0), run);
    hide Exec, LastRejection, HiddenSize, ExtractStorage;
    assert Follows(s.world.cloud, s.records, id);
  }

  // ---------- every lock can be cleared, without lost replies ----------

  predicate NothingHidden(s: Sys) {
    && (forall k :: k in s.procs ==> !s.procs[k].oracle.fate.HidesEffect())
    && (forall r :: r in s.records ==> !r.UpdateHidden?)
  }

  lemma {:induction false} RunsHideNothing(w0: World, run: seq<Event>)
    requires NoLostReplies(run)
    ensures NothingHidden(Exec(Start(w0), run))
  {
    if run != [] {
      assert run[|run| - 1] in run;
      RunsHideNothing(w0, run[..|run| - 1]);
      NextHidesNothing(Exec(Start(w0), run[..|run| - 1]), run[|run| - 1]);
    }
  }

  lemma NextHidesNothing(s: Sys, e: Event)
    requires NothingHidden(s) && (e.Begin? ==> !e.oracle.fate.HidesEffect())
    ensures NothingHidden(Next(s, e))
  {
    hide Step, Settle;
  }

  lemma {:induction false} NoHiddenSize(records: seq<Record>, id: VolumeId)
    requires forall r :: r in records ==> !r.UpdateHidden?
    ensures HiddenSize(records, id) == 0
  {
    if records != [] {
      assert records[|records| - 1] in records;
      NoHiddenSize(records[..|records| - 1], id);
    }
  }

  /**
   In every run from a driver start without lost replies and outside resizing, a locked,
   still existing volume is smaller than the request that was last rejected. Repeating that
   request is rejected again while the disk is attached, and once it is detached grows the
   disk to the requested size and clears the lock, after which a publish is admitted.
   */
  lemma LocksAreRecoverable(w0: World, run: seq<Event>, id: VolumeId, block: bool, node: InstanceId, newId: VolumeId)
    requires Sound(w0.cloud) && w0.locks == {} && NoOutsideResize(run) && NoLostReplies(run)
    requires var s := Exec(Start(w0), run);
             id in s.world.locks && id in s.world.cloud.disks && id != [] && !PendingWrite(s, id)
    ensures var s := Exec(Start(w0), run);
            && Rejected(s.records, id)
            && var w, d := s.world, s.world.cloud.disks[id];
            && var call := Expand(id, LastRejection(s.records, id).value, block);
            && Exceeds(call.range, d)
            && var (w', reply) := Solo(w, call, FaultFree(newId));
            && (d.attachments != map[] ==> w' == w && reply == Failed(Internal))
            && (d.attachments == map[] ==>
                  && id !in w'.locks && reply.Expanded? && id in w'.cloud.disks
                  && w'.cloud.disks[id] == d.(size := reply.capacity) && d.size < reply.capacity
                  && (node != "" && node in w.cloud.instances ==>
                        Solo(w', Publish(id, node, true, false), FaultFree(newId)).1 == Published(d.name)))
  {
    LockMapRefinesHistory(w0, run);
    var s := Exec(Start(w0), run);
    assert Rejected(s.records, id);
    RunsHideNothing(w0, run);
    NoHiddenSize(s.records, id);
    StrandedExactly(w0, run, id);
    var w, d := s.world, s.world.cloud.disks[id];
    var call := Expand(id, LastRejection(s.records, id).value, block);
    Answers.ExpandAlone(w, call.id, call.range, call.block, FaultFree(newId));
    assert w.locks + {id} == w.locks;
    if d.attachments == map[] && node != "" && node in w.cloud.instances {
      Answers.PublishAlone(Solo(w, call, FaultFree(newId)).0, id, node, true, false, FaultFree(newId));
    }
  }

  // ---------- and when it cannot be cleared ----------

  /** For a locked, detached volume the repeated request clears the lock exactly when it still asks for more. */
  lemma ClearedIffStillExceeding(w: World, call: Call, newId: VolumeId)
    requires call.Expand? && call.id != [] && call.id in w.locks && call.id in w.cloud.disks
    requires w.cloud.disks[call.id].attachments == map[]
    ensures call.id !in Solo(w, call, FaultFree(newId)).0.locks <==> Exceeds(call.range, w.cloud.disks[call.id])
  {
    Answers.ExpandAlone(w, call.id, call.range, call.block, FaultFree(newId));
  }

  /**
   A lost reply strands the lock: the update of a locked, detached volume has grown the
   disk, so every further attempt at the same request, whatever happens to it, returns early
   or fails and leaves the lock, and every publish is refused.
   */
  lemma LostReplyStrandsLock(w: World, call: Call, lossy: Oracle, attempts: seq<Oracle>, node: InstanceId, o: Oracle)
    requires lossy.firstRead && lossy.fate.HidesEffect()
    requires call.Expand? && call.id != [] && call.id in w.locks && call.id in w.cloud.disks
    requires w.cloud.disks[call.id].attachments == map[] && Exceeds(call.range, w.cloud.disks[call.id])
    ensures var lost := Solo(w, call, lossy).0;
            && call.id in lost.locks && call.id in lost.cloud.disks && !Exceeds(call.range, lost.cloud.disks[call.id])
            && call.id in Retry.Attempts(lost, call, attempts).locks
            && Solo(Retry.Attempts(lost, call, attempts), Publish(call.id, node, true, false), o).1.Failed?
  {
    var (lost, _) := Solo(w, call, lossy);
    Answers.ExpandAlone(w, call.id, call.range, call.block, lossy);
    StaysStranded(lost, call, attempts);
    var v := Retry.Attempts(lost, call, attempts);
    var publish := Publish(call.id, node, true, false);
    Unfold(v, publish, o, Entry(publish));
    if Entry(publish) == CheckLock {
      Unfold(v, publish, o, Step(v, publish, o, CheckLock).1);
    }
  }

  lemma {:induction false} StaysStranded(w: World, call: Call, attempts: seq<Oracle>)
    requires call.Expand? && call.id in w.locks && call.id in w.cloud.disks
    requires !Exceeds(call.range, w.cloud.disks[call.id])
    ensures Retry.Attempts(w, call, attempts) == w
  {
    if attempts != [] {
      StaysStranded(w, call, attempts[..|attempts| - 1]);
      Unfold(w, call, attempts[|attempts| - 1], Entry(call));
    }
  }

  /** Such a world is reached from a driver start: reject while attached, detach, lose the reply. */
  lemma StrandingHappens(id: VolumeId, node: InstanceId, o: Oracle)
    requires id != []
    ensures var d := Disk("data", "network-ssd", "", 5 * GIB, 4096, map[node := GenDiskId(id)]);
            var w0 := World(CloudState(map[id := d], {id}, {node}), {});
            var grow := Expand(id, Some(CapacityRange(6 * GIB, 0)), false);
            var w1 := Solo(w0, grow, FaultFree([])).0;
            var w2 := Solo(w1, Unpublish(id, node), FaultFree([])).0;
            var w3 := Solo(w2, grow, Oracle(true, true, ReplyLost, [])).0;
            && id in w3.locks && id in w3.cloud.disks && w3.cloud.disks[id].size == 6 * GIB
            && Solo(w3, grow, FaultFree([])) == (w3, Expanded(6 * GIB, true))
            && Solo(w3, Publish(id, node, true, false), o).1.Failed?
  {
    var d := Disk("data", "network-ssd", "", 5 * GIB, 4096, map[node := GenDiskId(id)]);
    var w0 := World(CloudState(map[id := d], {id}, {node}), {});
    var grow := Expand(id, Some(CapacityRange(6 * GIB, 0)), false);
    hide Step, RunFrom, Solo, ExtractStorage, GenDiskId, MaximumVolumeSize;
    SixGibibytes();
    assert node in d.attachments;
    Answers.ExpandAlone(w0, grow.id, grow.range, grow.block, FaultFree([]));
    var (w1, _) := Solo(w0, grow, FaultFree([]));
    DetachAlone(w1, id, node);
    Stranding(Solo(w1, Unpublish(id, node), FaultFree([])).0, grow, 6 * GIB, node, o);
  }

  lemma SixGibibytes()
    ensures ExtractStorage(Some(CapacityRange(6 * GIB, 0)), MaximumVolumeSize(4096)) == Some(6 * GIB)
  {
    MaximumVolumeSizeExact(4096);
  }

  /** A lost reply to the update of a locked, detached disk, and what repetition and publish then answer. */
  lemma Stranding(w: World, grow: Call, bytes: int, node: InstanceId, o: Oracle)
    requires grow.Expand? && grow.id != [] && grow.id in w.locks && grow.id in w.cloud.disks
    requires var d := w.cloud.disks[grow.id];
             && d.attachments == map[] && d.size < bytes
             && ExtractStorage(grow.range, MaximumVolumeSize(d.EffectiveBlockSize())) == Some(bytes)
    ensures var w' := Solo(w, grow, Oracle(true, true, ReplyLost, [])).0;
            && grow.id in w'.locks && grow.id in w'.cloud.disks && w'.cloud.disks[grow.id].size == bytes
            && Solo(w', grow, FaultFree([])) == (w', Expanded(bytes, true))
            && Solo(w', Publish(grow.id, node, true, false), o).1.Failed?
  {
    hide Step, RunFrom, Solo, ExtractStorage, MaximumVolumeSize;
    var lossy := Oracle(true, true, ReplyLost, []);
    Answers.ExpandAlone(w, grow.id, grow.range, grow.block, lossy);
    LostReplyStrandsLock(w, grow, lossy, [], node, o);
    var (w', _) := Solo(w, grow, lossy);
    assert Retry.Attempts(w', grow, []) == w';
    Answers.ExpandAlone(w', grow.id, grow.range, grow.block, FaultFree([]));
  }

  lemma DetachAlone(w: World, id: VolumeId, node: InstanceId)
    requires id != [] && id in w.cloud.disks && node in w.cloud.instances
    requires w.cloud.disks[id].attachments == map[node := GenDiskId(id)]
    ensures Solo(w, Unpublish(id, node), FaultFree([])) ==
            (w.(cloud := SetDisk(w.cloud, id, w.cloud.disks[id].(attachments := map[]))), Unpublished)
  {
    assert node in w.cloud.disks[id].attachments;
    Answers.UnpublishAlone(w, id, node, FaultFree([]));
    assert w.cloud.disks[id].attachments - {node} == map[];
  }
}
