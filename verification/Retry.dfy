/**
 Retries. A call whose goal is already met changes nothing and gives the answer it gave
 when it met it, so any number of failed attempts followed by a success amounts to one
 fault-free call.
 */
module Retry {
  import opened Outcomes
  import opened DiskName
  import opened Capacity
  import opened Cloud
  import opened Handlers
  import opened System
  import Answers
  import BlockSize
  import Attachment

  // ---------- one attempt against the fault-free one ----------

  /** An attempt has no effect on the cloud, or the fault-free effect. */
  lemma {:induction false} EffectIsClean(w: World, call: Call, o: Oracle, pc: Pc)
    requires Fits(call, pc)
    ensures RunFrom(w, call, o, pc).0.cloud in {w.cloud, RunFrom(w, call, FaultFree(o.newId), pc).0.cloud}
    decreases Remaining(pc)
  {
    if Committed(pc) {
      WritesOnly(w, call, o, pc);
    } else {
      var (w1, pc1) := Step(w, call, o, pc);
      var (w2, pc2) := Step(w, call, FaultFree(o.newId), pc);
      StepAgainstClean(w, call, o, pc);
      if (w1, pc1) == (w2, pc2) && w1 == w {
        EffectIsClean(w, call, o, pc1);
      } else {
        WritesOnly(w1, call, o, pc1);
        if w1 != w { WritesOnly(w2, call, FaultFree(o.newId), pc2); }
      }
    }
  }

  /** A step reads the same as the fault-free one, fails without effect, or has the fault-free effect. */
  lemma StepAgainstClean(w: World, call: Call, o: Oracle, pc: Pc)
    requires Fits(call, pc) && !Committed(pc)
    ensures var (w1, pc1) := Step(w, call, o, pc);
            var (w2, pc2) := Step(w, call, FaultFree(o.newId), pc);
            || (w1 == w2 == w && pc1 == pc2)
            || (Committed(pc1) && w1 == w && (pc1.Finished? ==> pc1.reply.Failed? || (w2 == w && pc1 == pc2)))
            || (Committed(pc1) && Committed(pc2) && w1 == w2 && (pc1 == pc2 || (pc1.Finished? && pc1.reply.Failed?)))
  {
  }

  lemma WritesOnly(w: World, call: Call, o: Oracle, pc: Pc)
    requires Fits(call, pc) && Committed(pc)
    ensures RunFrom(w, call, o, pc).0.cloud == w.cloud
  {
  }

  /** A successful attempt is a fault-free one. */
  lemma {:induction false} SuccessIsClean(w: World, call: Call, o: Oracle, pc: Pc)
    requires Fits(call, pc) && !RunFrom(w, call, o, pc).1.Failed?
    ensures RunFrom(w, call, o, pc) == RunFrom(w, call, FaultFree(o.newId), pc)
    decreases Remaining(pc)
  {
    if !pc.Finished? {
      var (w1, pc1) := Step(w, call, o, pc);
      SuccessfulStep(w, call, o, pc);
      SuccessIsClean(w1, call, o, pc1);
    }
  }

  lemma SuccessfulStep(w: World, call: Call, o: Oracle, pc: Pc)
    requires Fits(call, pc) && !pc.Finished?
    ensures var (w1, pc1) := Step(w, call, o, pc);
            || (pc1.Finished? && pc1.reply.Failed?)
            || pc1.PutLock?
            || (w1, pc1) == Step(w, call, FaultFree(o.newId), pc)
    ensures pc.PutLock? ==> Step(w, call, o, pc).1 == Finished(Failed(Internal))
  {
  }

  // ---------- goals ----------

  /** The cloud is as the call would leave it, and this is the answer that says so. */
  ghost predicate Done(c: CloudState, call: Call, reply: Reply) {
    match call
    case Create(request) =>
      && PlanOf(request).Ok? && reply.Created?
      && var plan := PlanOf(request).value;
      && ByName(c, plan.name) == {reply.id} && c.disks[reply.id].size == plan.size
      && c.disks[reply.id].EffectiveBlockSize() == plan.blockSize
      && reply == Created(reply.id, plan.size, plan.place.region, c.disks[reply.id].zone)
    case Delete(id) => id != [] && id !in c.disks && reply == Deleted
    case Publish(id, node, _, _) =>
      && Entry(call) == CheckLock && id in c.disks && node in c.instances && node in c.disks[id].attachments
      && reply == Published(c.disks[id].name)
    case Unpublish(id, node) =>
      && id != [] && reply == Unpublished
      && (id !in c.disks || node !in c.disks[id].attachments || node !in c.instances)
    case Expand(id, range, _) =>
      && id != [] && id in c.disks && reply.Expanded? && reply.capacity == c.disks[id].size
      && var bytes := ExtractStorage(range, MaximumVolumeSize(c.disks[id].EffectiveBlockSize()));
      && bytes.Some? && bytes.value <= c.disks[id].size
  }

  /** Equal replies; an expansion may differ in asking the node to grow the file system. */
  predicate SameReply(a: Reply, b: Reply) {
    a == b || (a.Expanded? && b.Expanded? && a.capacity == b.capacity)
  }

  lemma PlannedBlockSizeIsLegal(request: CreateRequest)
    requires PlanOf(request).Ok?
    ensures BlockSize.Legal(PlanOf(request).value.blockSize)
  {
    if BlockSizeFor(request.parameters) != Some(BlockSize.DEFAULT_BLOCK_SIZE) {
      BlockSize.AcceptedIsLegal(request.parameters["blockSize"]);
    }
  }

  /** Success means the goal is met. */
  lemma SuccessMeansDone(w: World, call: Call, o: Oracle)
    requires Sound(w.cloud) && !Solo(w, call, o).1.Failed?
    ensures Done(Solo(w, call, o).0.cloud, call, Solo(w, call, o).1)
  {
    match call
    case Create(_) => CreateMeansDone(w, call, o);
    case Delete(id) =>
    case Publish(_, _, _, _) => PublishMeansDone(w, call, o);
    case Unpublish(_, _) => UnpublishMeansDone(w, call, o);
    case Expand(_, _, _) => ExpandMeansDone(w, call, o);
  }

  lemma CreateMeansDone(w: World, call: Call, o: Oracle)
    requires call.Create? && Sound(w.cloud) && !Solo(w, call, o).1.Failed?
    ensures Done(Solo(w, call, o).0.cloud, call, Solo(w, call, o).1)
  {
    var plan := PlanOf(call.request).value;
    PlannedBlockSizeIsLegal(call.request);
    Unfold(w, call, o, ListByName(plan));
    var (w1, pc1) := Step(w, call, o, ListByName(plan));
    Unfold(w1, call, o, pc1);
    if pc1.CallCreate? {
      var (w2, pc2) := Step(w1, call, o, pc1);
      Unfold(w2, call, o, pc2);
      NewNameIsUnique(w.cloud, w2.cloud, o.newId, plan);
    }
  }

  lemma NewNameIsUnique(c: CloudState, c': CloudState, newId: VolumeId, plan: Plan)
    requires c'.disks == c.disks[newId := plan.NewDisk()] && ByName(c, plan.name) == {}
    ensures ByName(c', plan.name) == {newId}
  {
    forall id | id in ByName(c', plan.name) ensures id == newId {
      assert id !in ByName(c, plan.name);
    }
    assert newId in ByName(c', plan.name);
  }

  lemma PublishMeansDone(w: World, call: Call, o: Oracle)
    requires call.Publish? && !Solo(w, call, o).1.Failed?
    ensures Done(Solo(w, call, o).0.cloud, call, Solo(w, call, o).1)
  {
    Unfold(w, call, o, CheckLock);
    Unfold(w, call, o, GetDiskToPublish);
    if call.id in w.cloud.disks {
      var vol := w.cloud.disks[call.id];
      Unfold(w, call, o, GetInstanceToPublish(vol));
      Unfold(w, call, o, CallAttach(vol));
    }
  }

  lemma UnpublishMeansDone(w: World, call: Call, o: Oracle)
    requires call.Unpublish? && !Solo(w, call, o).1.Failed?
    ensures Done(Solo(w, call, o).0.cloud, call, Solo(w, call, o).1)
  {
    Unfold(w, call, o, GetDiskToUnpublish);
    Unfold(w, call, o, GetInstanceToUnpublish);
    Unfold(w, call, o, CallDetach);
  }

  lemma ExpandUnfolds(w: World, call: Call, o: Oracle)
    requires call.Expand? && Entry(call) == GetDiskToExpand
    ensures var (w1, pc1) := Step(w, call, o, GetDiskToExpand);
            if pc1.Finished? then Solo(w, call, o) == (w1, pc1.reply)
            else
              var (w2, pc2) := Step(w1, call, o, pc1);
              if pc2.Finished? then Solo(w, call, o) == (w2, pc2.reply)
              else
                var (w3, pc3) := Step(w2, call, o, pc2);
                pc3.Finished? && Solo(w, call, o) == (w3, pc3.reply)
  {
    var (w1, pc1) := Step(w, call, o, GetDiskToExpand);
    Unfold(w, call, o, GetDiskToExpand);
    Unfold(w1, call, o, pc1);
    if !pc1.Finished? {
      var (w2, pc2) := Step(w1, call, o, pc1);
      Unfold(w2, call, o, pc2);
      if !pc2.Finished? {
        var (w3, pc3) := Step(w2, call, o, pc2);
        Unfold(w3, call, o, pc3);
      }
    }
  }

  lemma ExpandMeansDone(w: World, call: Call, o: Oracle)
    requires call.Expand? && !Solo(w, call, o).1.Failed?
    ensures Done(Solo(w, call, o).0.cloud, call, Solo(w, call, o).1)
  {
    ExpandUnfolds(w, call, o);
  }

  /** Once the goal is met, an attempt has no effect on the cloud; if it succeeds it says the same. */
  lemma DoneStays(w: World, call: Call, o: Oracle, reply: Reply)
    requires Done(w.cloud, call, reply)
    ensures Solo(w, call, o).0.cloud == w.cloud
    ensures Solo(w, call, o).1.Failed? || SameReply(Solo(w, call, o).1, reply)
  {
    match call
    case Create(_) =>
      assert ByName(w.cloud, PlanOf(call.request).value.name) == {reply.id};
      Unfold(w, call, o, Entry(call));
    case Delete(id) =>
      Unfold(w, call, o, CallDelete);
    case Publish(id, _, _, _) =>
      Unfold(w, call, o, CheckLock);
      Unfold(w, call, o, GetDiskToPublish);
      Unfold(w, call, o, GetInstanceToPublish(w.cloud.disks[id]));
    case Unpublish(_, _) =>
      Unfold(w, call, o, GetDiskToUnpublish);
      Unfold(w, call, o, GetInstanceToUnpublish);
      Unfold(w, call, o, CallDetach);
    case Expand(_, _, _) =>
      Unfold(w, call, o, GetDiskToExpand);
  }

  // ---------- any number of attempts ----------

  /** The world after attempts at a call, one after another. */
  ghost function Attempts(w: World, call: Call, oracles: seq<Oracle>): World {
    if oracles == [] then w
    else Solo(Attempts(w, call, oracles[..|oracles| - 1]), call, oracles[|oracles| - 1]).0
  }

  /** The reply of the last attempt. */
  ghost function LastReply(w: World, call: Call, oracles: seq<Oracle>): Reply
    requires oracles != []
  {
    Solo(Attempts(w, call, oracles[..|oracles| - 1]), call, oracles[|oracles| - 1]).1
  }

  /** How many of the attempts changed the cloud. */
  ghost function Effects(w: World, call: Call, oracles: seq<Oracle>): nat {
    if oracles == [] then 0
    else
      var earlier := oracles[..|oracles| - 1];
      Effects(w, call, earlier) +
      if Attempts(w, call, oracles).cloud == Attempts(w, call, earlier).cloud then 0 else 1
  }

  /** Only the lock map, and only through expansions, can differ from the world before. */
  predicate Untouched(w: World, v: World, call: Call) {
    v.cloud == w.cloud && (call.Expand? || v.locks == w.locks)
  }

  /** The lock map plays no part in the cloud effect or in the success of an expansion. */
  lemma {:induction false} LocksDoNotMatter(w: World, v: World, call: Call, o: Oracle, pc: Pc)
    requires call.Expand? && Fits(call, pc) && v.cloud == w.cloud
    ensures RunFrom(v, call, o, pc).0.cloud == RunFrom(w, call, o, pc).0.cloud
    ensures RunFrom(v, call, o, pc).1 == RunFrom(w, call, o, pc).1
    decreases Remaining(pc)
  {
    if !pc.Finished? {
      var (w1, pc1) := Step(w, call, o, pc);
      var (v1, pc2) := Step(v, call, o, pc);
      LocksDoNotMatter(w1, v1, call, o, pc1);
    }
  }

  lemma SoloFromUntouched(w: World, v: World, call: Call, o: Oracle)
    requires Untouched(w, v, call)
    ensures Solo(v, call, o).0.cloud == Solo(w, call, o).0.cloud && Solo(v, call, o).1 == Solo(w, call, o).1
  {
    if call.Expand? {
      LocksDoNotMatter(w, v, call, o, Entry(call));
    } else {
      assert v == w;
    }
  }

  lemma {:induction false} OnlyExpansionsLock(w: World, call: Call, o: Oracle, pc: Pc)
    requires Fits(call, pc) && !call.Expand?
    ensures RunFrom(w, call, o, pc).0.locks == w.locks
    decreases Remaining(pc)
  {
    if !pc.Finished? {
      var (w1, pc1) := Step(w, call, o, pc);
      OnlyExpansionsLock(w1, call, o, pc1);
    }
  }

  /** The fault-free call, with this id for a new disk, leaves the cloud like v and meets its goal. */
  ghost predicate CleanlyDone(w: World, v: World, call: Call, newId: VolumeId) {
    var (clean, reply) := Solo(w, call, FaultFree(newId));
    clean.cloud == v.cloud && Done(v.cloud, call, reply)
  }

  /** After any attempts: nothing has happened yet, or the fault-free effect has, once. */
  ghost predicate Converging(w: World, v: World, call: Call, effects: nat) {
    || (Untouched(w, v, call) && effects == 0)
    || (effects == 1 && exists newId :: CleanlyDone(w, v, call, newId))
  }

  lemma AttemptConverges(w: World, v: World, call: Call, effects: nat, o: Oracle)
    requires Sound(w.cloud) && Converging(w, v, call, effects)
    ensures var v' := Solo(v, call, o).0;
            Converging(w, v', call, effects + if v'.cloud == v.cloud then 0 else 1)
  {
    var v' := Solo(v, call, o).0;
    if Untouched(w, v, call) && effects == 0 {
      FirstEffect(w, v, call, o);
    } else {
      var newId :| CleanlyDone(w, v, call, newId);
      DoneStays(v, call, o, Solo(w, call, FaultFree(newId)).1);
      hide Solo, Done;
      assert CleanlyDone(w, v', call, newId);
    }
  }

  lemma FirstEffect(w: World, v: World, call: Call, o: Oracle)
    requires Sound(w.cloud) && Untouched(w, v, call)
    ensures var v' := Solo(v, call, o).0;
            if v'.cloud == v.cloud then Untouched(w, v', call) else CleanlyDone(w, v', call, o.newId)
  {
    var v' := Solo(v, call, o).0;
    SoloFromUntouched(w, v, call, o);
    if !call.Expand? { OnlyExpansionsLock(v, call, o, Entry(call)); }
    if v'.cloud != v.cloud {
      EffectIsClean(w, call, o, Entry(call));
      EffectMeansSuccess(w, call, o.newId);
      SuccessMeansDone(w, call, FaultFree(o.newId));
    }
  }

  /** A fault-free call that changes the cloud succeeds. */
  lemma EffectMeansSuccess(w: World, call: Call, newId: VolumeId)
    requires Solo(w, call, FaultFree(newId)).0.cloud != w.cloud
    ensures !Solo(w, call, FaultFree(newId)).1.Failed?
  {
    FailureMeansNoEffect(w, call, newId, Entry(call));
  }

  lemma {:induction false} FailureMeansNoEffect(w: World, call: Call, newId: VolumeId, pc: Pc)
    requires Fits(call, pc) && !pc.RemoveLock?
    ensures var (v, reply) := RunFrom(w, call, FaultFree(newId), pc); reply.Failed? ==> v.cloud == w.cloud
    decreases Remaining(pc)
  {
    if !pc.Finished? {
      var (w1, pc1) := Step(w, call, FaultFree(newId), pc);
      Unfold(w, call, FaultFree(newId), pc);
      if pc1.RemoveLock? {
        var (w2, pc2) := Step(w1, call, FaultFree(newId), pc1);
        Unfold(w1, call, FaultFree(newId), pc1);
        Unfold(w2, call, FaultFree(newId), pc2);
      } else {
        FailureMeansNoEffect(w1, call, newId, pc1);
      }
    }
  }

  lemma {:induction false} AttemptsConverge(w: World, call: Call, oracles: seq<Oracle>)
    requires Sound(w.cloud)
    ensures Converging(w, Attempts(w, call, oracles), call, Effects(w, call, oracles))
  {
    if oracles != [] {
      var earlier := oracles[..|oracles| - 1];
      AttemptsConverge(w, call, earlier);
      AttemptConverges(w, Attempts(w, call, earlier), call, Effects(w, call, earlier), oracles[|oracles| - 1]);
    }
  }

  /**
   Any number of attempts, each failing anywhere and with or without its effect, then a
   success: the cloud is as one fault-free call leaves it, up to the id the cloud chose,
   the answer is the same, and at most one attempt had an effect.
   */
  lemma RetriesConverge(w: World, call: Call, oracles: seq<Oracle>)
    requires Sound(w.cloud) && oracles != [] && !LastReply(w, call, oracles).Failed?
    ensures exists newId ::
              var (clean, reply) := Solo(w, call, FaultFree(newId));
              clean.cloud == Attempts(w, call, oracles).cloud && SameReply(LastReply(w, call, oracles), reply)
    ensures Effects(w, call, oracles) <= 1
  {
    var earlier, o := oracles[..|oracles| - 1], oracles[|oracles| - 1];
    var v := Attempts(w, call, earlier);
    AttemptsConverge(w, call, oracles);
    AttemptsConverge(w, call, earlier);
    if Untouched(w, v, call) {
      SoloFromUntouched(w, v, call, o);
      SuccessIsClean(w, call, o, Entry(call));
    } else {
      var newId :| CleanlyDone(w, v, call, newId);
      DoneStays(v, call, o, Solo(w, call, FaultFree(newId)).1);
    }
  }

  /** For an expansion, the converged size is the larger of the old size and the requested one. */
  lemma RetriedExpansionSize(w: World, call: Call, oracles: seq<Oracle>)
    requires call.Expand? && Sound(w.cloud) && oracles != [] && !LastReply(w, call, oracles).Failed?
    ensures call.id in w.cloud.disks && call.id in Attempts(w, call, oracles).cloud.disks
    ensures var disk := w.cloud.disks[call.id];
            var bytes := ExtractStorage(call.range, MaximumVolumeSize(disk.EffectiveBlockSize()));
            && bytes.Some?
            && Attempts(w, call, oracles).cloud.disks[call.id] ==
               disk.(size := if disk.size < bytes.value then bytes.value else disk.size)
  {
    RetriesConverge(w, call, oracles);
    var newId :| var (clean, reply) := Solo(w, call, FaultFree(newId));
      clean.cloud == Attempts(w, call, oracles).cloud && SameReply(LastReply(w, call, oracles), reply);
    CleanExpansionSize(w, call, newId);
  }

  lemma CleanExpansionSize(w: World, call: Call, newId: VolumeId)
    requires call.Expand? && !Solo(w, call, FaultFree(newId)).1.Failed?
    ensures var v := Solo(w, call, FaultFree(newId)).0;
            && call.id in w.cloud.disks && call.id in v.cloud.disks
            && var disk := w.cloud.disks[call.id];
            && var bytes := ExtractStorage(call.range, MaximumVolumeSize(disk.EffectiveBlockSize()));
            && bytes.Some?
            && v.cloud.disks[call.id] == disk.(size := if disk.size < bytes.value then bytes.value else disk.size)
  {
    ExpandUnfolds(w, call, FaultFree(newId));
  }

  // ---------- attempts never get stuck ----------

  lemma {:induction false} AttemptsKeepLocks(w: World, call: Call, oracles: seq<Oracle>)
    requires !call.Expand?
    ensures Attempts(w, call, oracles).locks == w.locks
  {
    if oracles != [] {
      AttemptsKeepLocks(w, call, oracles[..|oracles| - 1]);
      OnlyExpansionsLock(Attempts(w, call, oracles[..|oracles| - 1]), call, oracles[|oracles| - 1], Entry(call));
    }
  }

  /** Nothing keeps a repetition from seeing that the goal is met. */
  predicate Unhindered(w: World, call: Call) {
    && (call.Publish? ==> call.id !in w.locks)
    && (call.Unpublish? && call.id in w.cloud.disks && call.node in w.cloud.instances ==>
          w.cloud.disks[call.id].attachments == map[])
  }

  /** Once the goal is met, a fault-free attempt says so. */
  lemma DoneSucceeds(w: World, call: Call, reply: Reply, newId: VolumeId)
    requires Done(w.cloud, call, reply) && Unhindered(w, call)
    ensures !Solo(w, call, FaultFree(newId)).1.Failed?
  {
    var o := FaultFree(newId);
    match call
    case Create(_) =>
      assert ByName(w.cloud, PlanOf(call.request).value.name) == {reply.id};
      Unfold(w, call, o, Entry(call));
    case Delete(id) => Unfold(w, call, o, CallDelete);
    case Publish(id, _, _, _) =>
      Unfold(w, call, o, CheckLock);
      Unfold(w, call, o, GetDiskToPublish);
      Unfold(w, call, o, GetInstanceToPublish(w.cloud.disks[id]));
    case Unpublish(_, _) =>
      Unfold(w, call, o, GetDiskToUnpublish);
      Unfold(w, call, o, GetInstanceToUnpublish);
    case Expand(_, _, _) => Unfold(w, call, o, GetDiskToExpand);
  }

  /** Success without faults does not depend on which fresh id a new disk gets. */
  lemma {:induction false} AnyFreshId(w: World, call: Call, newId: VolumeId, otherId: VolumeId, pc: Pc)
    requires Fits(call, pc) && otherId !in w.cloud.usedIds && !RunFrom(w, call, FaultFree(newId), pc).1.Failed?
    ensures !RunFrom(w, call, FaultFree(otherId), pc).1.Failed?
    decreases Remaining(pc)
  {
    if !pc.Finished? {
      Unfold(w, call, FaultFree(newId), pc);
      Unfold(w, call, FaultFree(otherId), pc);
      if pc.CallCreate? {
        var (w', pc') := Step(w, call, FaultFree(otherId), pc);
        Unfold(w', call, FaultFree(otherId), pc');
      } else {
        var (w', pc') := Step(w, call, FaultFree(newId), pc);
        assert (w', pc') == Step(w, call, FaultFree(otherId), pc);
        StepKeepsFresh(w, call, FaultFree(newId), pc, otherId);
        hide Step;
        AnyFreshId(w', call, newId, otherId, pc');
      }
    }
  }

  lemma StepKeepsFresh(w: World, call: Call, o: Oracle, pc: Pc, id: VolumeId)
    requires Fits(call, pc) && !pc.Finished? && !pc.CallCreate? && id !in w.cloud.usedIds
    ensures id !in Step(w, call, o, pc).0.cloud.usedIds
  {
  }

  /** What one fault-free success leaves behind does not hinder the next. */
  lemma SuccessUnhindered(w: World, v: World, call: Call, newId: VolumeId)
    requires Attachment.Single(w.cloud) && !Solo(w, call, FaultFree(newId)).1.Failed?
    requires v.cloud == Solo(w, call, FaultFree(newId)).0.cloud && (!call.Expand? ==> v.locks == w.locks)
    ensures Unhindered(v, call)
  {
    var o := FaultFree(newId);
    if call.Publish? {
      Unfold(w, call, o, Entry(call));
      if Entry(call) == CheckLock { Unfold(w, call, o, Step(w, call, o, CheckLock).1); }
    } else if call.Unpublish? && call.id != [] {
      Answers.UnpublishAlone(w, call.id, call.node, o);
      if call.id in w.cloud.disks && call.node in w.cloud.disks[call.id].attachments {
        assert Attachment.SingleDisk(w.cloud, call.id);
        forall n | n in w.cloud.disks[call.id].attachments ensures n == call.node {
          assert Attachment.Attached(w.cloud, call.id, n) && Attachment.Attached(w.cloud, call.id, call.node);
        }
        assert w.cloud.disks[call.id].attachments - {call.node} == map[];
      }
    }
  }

  /**
   After any attempts, each failing anywhere and with or without its effect, an attempt
   without faults succeeds if it would have succeeded in the first place.
   */
  lemma RetriesSucceed(w: World, call: Call, oracles: seq<Oracle>, newId: VolumeId, freshId: VolumeId)
    requires Sound(w.cloud) && Attachment.Single(w.cloud) && !Solo(w, call, FaultFree(newId)).1.Failed?
    requires freshId !in Attempts(w, call, oracles).cloud.usedIds
    ensures !Solo(Attempts(w, call, oracles), call, FaultFree(freshId)).1.Failed?
  {
    var v := Attempts(w, call, oracles);
    AttemptsConverge(w, call, oracles);
    if !call.Expand? { AttemptsKeepLocks(w, call, oracles); }
    hide Solo, Attempts, Done;
    if Untouched(w, v, call) {
      AnyFreshIdAlone(w, call, newId, freshId);
      SoloFromUntouched(w, v, call, FaultFree(freshId));
    } else {
      var id :| CleanlyDone(w, v, call, id);
      CleanlyDoneSucceeds(w, v, call, id, freshId);
    }
  }

  lemma AnyFreshIdAlone(w: World, call: Call, newId: VolumeId, freshId: VolumeId)
    requires !Solo(w, call, FaultFree(newId)).1.Failed? && freshId !in w.cloud.usedIds
    ensures !Solo(w, call, FaultFree(freshId)).1.Failed?
  {
    AnyFreshId(w, call, newId, freshId, Entry(call));
  }

  lemma CleanlyDoneSucceeds(w: World, v: World, call: Call, id: VolumeId, freshId: VolumeId)
    requires Attachment.Single(w.cloud) && CleanlyDone(w, v, call, id) && (!call.Expand? ==> v.locks == w.locks)
    ensures !Solo(v, call, FaultFree(freshId)).1.Failed?
  {
    var reply := Solo(w, call, FaultFree(id)).1;
    assert !reply.Failed? by { DoneIsNoFailure(v.cloud, call, reply); }
    SuccessUnhindered(w, v, call, id);
    DoneSucceeds(v, call, reply, freshId);
  }

  lemma DoneIsNoFailure(c: CloudState, call: Call, reply: Reply)
    requires Done(c, call, reply)
    ensures !reply.Failed?
  {
  }
}
