/**
 Retries in the middle of a run: any number of attempts at one call, with calls for other
 volumes in flight between and during them.
 */
module RetryAmidOthers {
  import opened DiskName
  import opened Capacity
  import opened Cloud
  import opened Handlers
  import opened System
  import opened Retry
  import opened Serializability

  /** Up to attachments, the same disks have this name. */
  predicate SameNamed(c: CloudState, c': CloudState, id: VolumeId, name: string) {
    && (id in c.disks && c.disks[id].name == name <==> id in c'.disks && c'.disks[id].name == name)
    && (id in c.disks && id in c'.disks && c.disks[id].name == name ==>
          && c.disks[id].size == c'.disks[id].size && c.disks[id].blockSize == c'.disks[id].blockSize
          && c.disks[id].zone == c'.disks[id].zone)
  }

  /** The part of the disk table that the call is about is the same. */
  ghost predicate SamePart(c: CloudState, c': CloudState, call: Call) {
    if call.Create? then forall id :: SameNamed(c, c', id, call.request.name)
    else (call.id in c.disks <==> call.id in c'.disks) && (call.id in c.disks ==> c.disks[call.id] == c'.disks[call.id])
  }

  /** Everything the call looks at is the same, and v has given out no other ids than w. */
  ghost predicate Agree(w: World, v: World, call: Call) {
    && SamePart(w.cloud, v.cloud, call)
    && w.cloud.instances == v.cloud.instances && v.cloud.usedIds <= w.cloud.usedIds
    && (!call.Create? ==> (call.id in w.locks <==> call.id in v.locks))
  }

  /** An id that is taken keeps a create from having its effect. */
  function AsSeen(w: World, call: Call, o: Oracle): Oracle {
    if call.Create? && o.newId in w.cloud.usedIds then o.(fate := Fate.NotDone) else o
  }

  /** The other call is for a disk of the name that the create is about. */
  predicate Touches(c: CloudState, call: Call, other: Call) {
    call.Create? && (other.Delete? || other.Expand?) && other.id in c.disks
    && c.disks[other.id].name == call.request.name
  }

  // ---------- an attempt ----------

  lemma SameListing(c: CloudState, c': CloudState, call: Call)
    requires call.Create? && SamePart(c, c', call)
    ensures ByName(c, call.request.name) == ByName(c', call.request.name)
  {
    forall id ensures id in ByName(c, call.request.name) <==> id in ByName(c', call.request.name) {
      assert SameNamed(c, c', id, call.request.name);
    }
  }

  predicate OwnName(call: Call, pc: Pc) {
    call.Create? && (pc.ListByName? || pc.CallCreate?) ==> pc.plan.name == call.request.name
  }

  /** A mutating call on a disk that is the same in both. */
  lemma SettleAgrees(c: CloudState, c': CloudState, m: Mutation, fate: Fate, call: Call)
    requires !m.CreateDisk? && !call.Create? && call.id == m.id && SamePart(c, c', call)
    requires c.instances == c'.instances && c'.usedIds <= c.usedIds
    ensures var (d, error) := Settle(c, m, fate);
            var (d', error') := Settle(c', m, fate);
            && error == error' && SamePart(d, d', call) && d.instances == d'.instances && d'.usedIds <= d.usedIds
            && (d == c <==> d' == c')
  {
    if call.id in c.disks {
      SameOnlyIfUnchanged(c, call.id);
      SameOnlyIfUnchanged(c', call.id);
    }
  }

  lemma SameOnlyIfUnchanged(c: CloudState, id: VolumeId)
    requires id in c.disks
    ensures forall d :: SetDisk(c, id, d) == c <==> d == c.disks[id]
    ensures c.(disks := c.disks - {id}) != c
  {
    forall d | SetDisk(c, id, d) == c ensures d == c.disks[id] {
      assert SetDisk(c, id, d).disks[id] == d;
    }
    forall d | d == c.disks[id] ensures SetDisk(c, id, d) == c {
      assert c.disks[id := d] == c.disks;
    }
    assert id !in (c.disks - {id});
  }

  /** One step of the call in worlds that agree. */
  lemma StepAgrees(w: World, v: World, call: Call, o: Oracle, pc: Pc)
    requires Agree(w, v, call) && Fits(call, pc) && !pc.Finished? && OwnName(call, pc)
    ensures StepsAlike(w, v, call, o, pc)
  {
    if call.Create? {
      SameListing(w.cloud, v.cloud, call);
      CreateStepAgrees(w, v, call, o, pc);
    } else {
      hide Settle, SetDisk, ExtractStorage, GenDiskId;
      match pc
      case CallDelete => SettleAgrees(w.cloud, v.cloud, DeleteDisk(call.id), o.fate, call);
      case CallAttach(_) =>
        SettleAgrees(w.cloud, v.cloud, AttachDisk(call.id, call.node, GenDiskId(call.id)), o.fate, call);
      case CallDetach => SettleAgrees(w.cloud, v.cloud, DetachDisk(call.id, call.node), o.fate, call);
      case CallUpdate(bytes) => SettleAgrees(w.cloud, v.cloud, UpdateSize(call.id, bytes), o.fate, call);
      case _ =>
    }
  }

  ghost predicate StepsAlike(w: World, v: World, call: Call, o: Oracle, pc: Pc)
    requires Fits(call, pc) && !pc.Finished?
  {
    var (w', pc') := Step(w, call, o, pc);
    var (v', pc'') := Step(v, call, AsSeen(w, call, o), pc);
    && pc' == pc'' && Agree(w', v', call) && OwnName(call, pc') && (w'.cloud == w.cloud <==> v'.cloud == v.cloud)
    && (call.Create? && !pc'.Finished? ==> w' == w)
    && (w'.cloud != w.cloud ==> Committed(pc'))
  }

  lemma CreateStepAgrees(w: World, v: World, call: Call, o: Oracle, pc: Pc)
    requires call.Create? && Agree(w, v, call) && Fits(call, pc) && !pc.Finished? && OwnName(call, pc)
    requires ByName(w.cloud, call.request.name) == ByName(v.cloud, call.request.name)
    ensures StepsAlike(w, v, call, o, pc)
  {
    var name := call.request.name;
    if pc.ListByName? && ByName(w.cloud, name) != {} && |ByName(w.cloud, name)| == 1 {
      var id := Only(ByName(w.cloud, name));
      assert id in ByName(w.cloud, name) && SameNamed(w.cloud, v.cloud, id, name);
    } else if pc.CallCreate? {
      var (w', v') := (Step(w, call, o, pc).0, Step(v, call, AsSeen(w, call, o), pc).0);
      forall id ensures SameNamed(w'.cloud, v'.cloud, id, name) {
        assert SameNamed(w.cloud, v.cloud, id, name);
      }
    }
  }

  lemma {:induction false} CommittedKeepsCloud(w: World, call: Call, o: Oracle, pc: Pc)
    requires Fits(call, pc) && Committed(pc)
    ensures RunFrom(w, call, o, pc).0.cloud == w.cloud
    decreases Remaining(pc)
  {
    Unfold(w, call, o, pc);
    if !pc.Finished? {
      var (w', pc') := Step(w, call, o, pc);
      CommittedKeepsCloud(w', call, o, pc');
    }
  }

  lemma {:induction false} RunAgrees(w: World, v: World, call: Call, o: Oracle, o': Oracle, pc: Pc)
    requires Agree(w, v, call) && Fits(call, pc) && OwnName(call, pc) && (!pc.Finished? ==> o' == AsSeen(w, call, o))
    ensures var (w', reply) := RunFrom(w, call, o, pc);
            var (v', reply') := RunFrom(v, call, o', pc);
            reply == reply' && Agree(w', v', call) && (w'.cloud == w.cloud <==> v'.cloud == v.cloud)
    decreases Remaining(pc)
  {
    Unfold(w, call, o, pc);
    Unfold(v, call, o', pc);
    if !pc.Finished? {
      StepAgrees(w, v, call, o, pc);
      var (w', pc') := Step(w, call, o, pc);
      var (v', pc'') := Step(v, call, o', pc);
      assert !pc'.Finished? ==> o' == AsSeen(w', call, o);
      if w'.cloud != w.cloud {
        CommittedKeepsCloud(w', call, o, pc');
        CommittedKeepsCloud(v', call, o', pc');
      }
      hide Step, Agree, AsSeen, Fits;
      RunAgrees(w', v', call, o, o', pc');
    }
  }

  lemma AttemptAgrees(w: World, v: World, call: Call, o: Oracle)
    requires Agree(w, v, call)
    ensures var (w', reply) := Solo(w, call, o);
            var (v', reply') := Solo(v, call, AsSeen(w, call, o));
            reply == reply' && Agree(w', v', call) && (w'.cloud == w.cloud <==> v'.cloud == v.cloud)
  {
    EntryHasOwnName(call);
    RunAgrees(w, v, call, o, AsSeen(w, call, o), Entry(call));
  }

  lemma EntryHasOwnName(call: Call)
    ensures Fits(call, Entry(call)) && OwnName(call, Entry(call))
  {
  }

  // ---------- a call for another volume ----------

  /** Another call's step leaves alone what this call looks at. */
  lemma OtherStepAgrees(w: World, v: World, call: Call, other: Call, o: Oracle, pc: Pc)
    requires Sound(w.cloud) && Agree(w, v, call) && KeyOf(other) != KeyOf(call) && !Touches(w.cloud, call, other)
    requires !call.Create? ==> call.id in w.cloud.usedIds
    requires Fits(other, pc) && !pc.Finished? && OwnName(other, pc)
    ensures var (w', pc') := Step(w, other, o, pc);
            && Sound(w'.cloud) && Agree(w', v, call) && w.cloud.usedIds <= w'.cloud.usedIds && OwnName(other, pc')
            && (!pc'.Finished? ==> !Touches(w'.cloud, call, other))
  {
    if call.Create? {
      var w' := Step(w, other, o, pc).0;
      OtherStepKeepsNames(w, other, o, pc, call.request.name);
      forall id ensures SameNamed(w'.cloud, v.cloud, id, call.request.name) {
        assert SameNamed(w.cloud, v.cloud, id, call.request.name);
        assert SameNamed(w'.cloud, w.cloud, id, call.request.name);
      }
    }
  }

  lemma OtherStepKeepsNames(w: World, other: Call, o: Oracle, pc: Pc, name: string)
    requires Sound(w.cloud) && Fits(other, pc) && !pc.Finished? && OwnName(other, pc)
    requires other.Create? ==> other.request.name != name
    requires (other.Delete? || other.Expand?) && other.id in w.cloud.disks ==> w.cloud.disks[other.id].name != name
    ensures forall id :: SameNamed(Step(w, other, o, pc).0.cloud, w.cloud, id, name)
  {
  }

  lemma {:induction false} OtherRunAgrees(w: World, v: World, call: Call, other: Call, o: Oracle, pc: Pc)
    requires Sound(w.cloud) && Agree(w, v, call) && KeyOf(other) != KeyOf(call)
    requires !call.Create? ==> call.id in w.cloud.usedIds
    requires Fits(other, pc) && OwnName(other, pc) && (!pc.Finished? ==> !Touches(w.cloud, call, other))
    ensures var w' := RunFrom(w, other, o, pc).0;
            Sound(w'.cloud) && Agree(w', v, call) && w.cloud.usedIds <= w'.cloud.usedIds
    decreases Remaining(pc)
  {
    Unfold(w, other, o, pc);
    if !pc.Finished? {
      OtherStepAgrees(w, v, call, other, o, pc);
      var (w', pc') := Step(w, other, o, pc);
      hide Step, Agree, Fits, Touches, OwnName;
      OtherRunAgrees(w', v, call, other, o, pc');
    }
  }

  lemma {:induction false} IdsGrow(w: World, call: Call, o: Oracle, pc: Pc)
    requires Sound(w.cloud) && Fits(call, pc)
    ensures var w' := RunFrom(w, call, o, pc).0; Sound(w'.cloud) && w.cloud.usedIds <= w'.cloud.usedIds
    decreases Remaining(pc)
  {
    Unfold(w, call, o, pc);
    if !pc.Finished? {
      var (w', pc') := Step(w, call, o, pc);
      StepKeepsSound(w, call, o, pc);
      IdsGrow(w', call, o, pc');
    }
  }

  // ---------- the serial order ----------

  /** All calls on the call's key are attempts at it, no other call in the order touches what it is about, and
      nothing happens from outside. */
  ghost predicate Amid(w0: World, order: seq<Commit>, call: Call) {
    forall i :: 0 <= i < |order| ==>
      && order[i].Commit?
      && (if KeyOf(order[i].call) == KeyOf(call) then order[i].call == call
          else !Touches(Serial(w0, order[..i]).cloud, call, order[i].call))
  }

  predicate Attempt(c: Commit, call: Call) {
    c.Commit? && KeyOf(c.call) == KeyOf(call)
  }

  /** The faults of the attempts, in their order. */
  ghost function OraclesOf(w0: World, order: seq<Commit>, call: Call): seq<Oracle> {
    if order == [] then []
    else
      var before, last := order[..|order| - 1], order[|order| - 1];
      OraclesOf(w0, before, call) +
      if Attempt(last, call) then [AsSeen(Serial(w0, before), call, last.oracle)] else []
  }

  /** How many of the attempts changed the cloud. */
  ghost function EffectsAmid(w0: World, order: seq<Commit>, call: Call): nat {
    if order == [] then 0
    else
      var before, last := order[..|order| - 1], order[|order| - 1];
      EffectsAmid(w0, before, call) +
      if Attempt(last, call) && Serial(w0, order).cloud != Serial(w0, before).cloud then 1 else 0
  }

  lemma AmidBefore(w0: World, order: seq<Commit>, n: nat, call: Call)
    requires Amid(w0, order, call) && n <= |order|
    ensures Amid(w0, order[..n], call)
  {
    hide Serial, Touches;
    forall i | 0 <= i < n ensures order[..n][..i] == order[..i] { }
  }

  lemma AttemptsSnoc(w: World, call: Call, oracles: seq<Oracle>, o: Oracle)
    ensures var v := Attempts(w, call, oracles);
            && Attempts(w, call, oracles + [o]) == Solo(v, call, o).0
            && LastReply(w, call, oracles + [o]) == Solo(v, call, o).1
            && Effects(w, call, oracles + [o]) ==
               Effects(w, call, oracles) + if Solo(v, call, o).0.cloud == v.cloud then 0 else 1
  {
    assert (oracles + [o])[..|oracles + [o]| - 1] == oracles;
  }

  /** The world of the order is as after the attempts alone, for the call. */
  ghost predicate InStep(w0: World, order: seq<Commit>, call: Call) {
    var w, oracles := Serial(w0, order), OraclesOf(w0, order, call);
    && Sound(w.cloud) && w0.cloud.usedIds <= w.cloud.usedIds
    && Agree(w, Attempts(w0, call, oracles), call)
    && EffectsAmid(w0, order, call) == Effects(w0, call, oracles)
  }

  lemma InStepAtFirst(w0: World, call: Call)
    requires Sound(w0.cloud)
    ensures InStep(w0, [], call)
  {
  }

  lemma InStepAfterAttempt(w0: World, before: seq<Commit>, c: Commit, call: Call)
    requires InStep(w0, before, call) && c.Commit? && c.call == call
    ensures InStep(w0, before + [c], call)
    ensures OraclesOf(w0, before + [c], call) != []
    ensures LastReply(w0, call, OraclesOf(w0, before + [c], call)) == SerialReply(w0, before + [c], |before|)
  {
    var w, oracles := Serial(w0, before), OraclesOf(w0, before, call);
    var v, o := Attempts(w0, call, oracles), AsSeen(w, call, c.oracle);
    SerialAppend(w0, before, c);
    OraclesAppend(w0, before, c, call);
    hide Serial, SerialReply, OraclesOf, EffectsAmid, Attempts, Effects, LastReply, Agree, AsSeen, Solo;
    AttemptAgrees(w, v, call, c.oracle);
    AttemptsSnoc(w0, call, oracles, o);
    SoloIdsGrow(w, call, c.oracle);
  }

  lemma InStepAfterOther(w0: World, before: seq<Commit>, c: Commit, call: Call)
    requires InStep(w0, before, call) && c.Commit? && !Attempt(c, call)
    requires !Touches(Serial(w0, before).cloud, call, c.call)
    requires !call.Create? ==> call.id in w0.cloud.usedIds
    ensures InStep(w0, before + [c], call)
  {
    var w, oracles := Serial(w0, before), OraclesOf(w0, before, call);
    SerialAppend(w0, before, c);
    OraclesAppend(w0, before, c, call);
    EntryHasOwnName(c.call);
    hide Serial, OraclesOf, EffectsAmid, Attempts, Effects, Agree, RunFrom, Touches;
    assert oracles + [] == oracles;
    OtherRunAgrees(w, Attempts(w0, call, oracles), call, c.call, c.oracle, Entry(c.call));
  }

  lemma SoloIdsGrow(w: World, call: Call, o: Oracle)
    requires Sound(w.cloud)
    ensures var w' := Solo(w, call, o).0; Sound(w'.cloud) && w.cloud.usedIds <= w'.cloud.usedIds
  {
    EntryHasOwnName(call);
    IdsGrow(w, call, o, Entry(call));
  }

  lemma OraclesAppend(w0: World, before: seq<Commit>, c: Commit, call: Call)
    ensures OraclesOf(w0, before + [c], call) ==
            OraclesOf(w0, before, call) + if Attempt(c, call) then [AsSeen(Serial(w0, before), call, c.oracle)] else []
    ensures EffectsAmid(w0, before + [c], call) == EffectsAmid(w0, before, call) +
            if Attempt(c, call) && Serial(w0, before + [c]).cloud != Serial(w0, before).cloud then 1 else 0
  {
    var order := before + [c];
    assert order[..|order| - 1] == before && order[|order| - 1] == c;
    hide Serial, AsSeen, Attempt;
  }

  /** In the order the call's part of the world is as after its attempts alone. */
  lemma {:induction false} OrderAgrees(w0: World, order: seq<Commit>, call: Call)
    requires Sound(w0.cloud) && Amid(w0, order, call) && (!call.Create? ==> call.id in w0.cloud.usedIds)
    ensures InStep(w0, order, call)
  {
    if order == [] {
      InStepAtFirst(w0, call);
    } else {
      var before, last := order[..|order| - 1], order[|order| - 1];
      AmidLast(w0, order, call);
      hide *;
      AmidBefore(w0, order, |before|, call);
      OrderAgrees(w0, before, call);
      AllButLast(order);
      if Attempt(last, call) {
        InStepAfterAttempt(w0, before, last, call);
      } else {
        InStepAfterOther(w0, before, last, call);
      }
    }
  }

  lemma AmidLast(w0: World, order: seq<Commit>, call: Call)
    requires Amid(w0, order, call) && order != []
    ensures var before, last := order[..|order| - 1], order[|order| - 1];
            && last.Commit?
            && (Attempt(last, call) ==> last.call == call)
            && (!Attempt(last, call) ==> !Touches(Serial(w0, before).cloud, call, last.call))
  {
    hide Serial, Touches;
  }

  /** No attempt is at place n or later. */
  predicate NoneFrom(order: seq<Commit>, n: nat, call: Call) {
    forall j :: n <= j < |order| ==> !Attempt(order[j], call)
  }

  /** The reply of the last attempt. */
  lemma LastAttemptReplies(w0: World, order: seq<Commit>, i: nat, call: Call)
    requires Sound(w0.cloud) && Amid(w0, order, call) && (!call.Create? ==> call.id in w0.cloud.usedIds)
    requires i < |order| && Attempt(order[i], call) && NoneFrom(order, i + 1, call)
    ensures OraclesOf(w0, order, call) != []
    ensures LastReply(w0, call, OraclesOf(w0, order, call)) == SerialReply(w0, order, i)
  {
    AmidAt(w0, order, i, call);
    hide *;
    OthersAddNothing(w0, order, i + 1, call);
    SameReplyUpTo(w0, order, i);
    AmidBefore(w0, order, i, call);
    OrderAgrees(w0, order[..i], call);
    NextPrefix(order, i);
    InStepAfterAttempt(w0, order[..i], order[i], call);
  }

  lemma AllButLast(order: seq<Commit>)
    requires order != []
    ensures order[..|order| - 1] + [order[|order| - 1]] == order
  {
  }

  lemma NextPrefix(order: seq<Commit>, i: nat)
    requires i < |order|
    ensures order[..i] + [order[i]] == order[..i + 1]
  {
  }

  lemma AmidAt(w0: World, order: seq<Commit>, i: nat, call: Call)
    requires Amid(w0, order, call) && i < |order| && Attempt(order[i], call)
    ensures order[i].Commit? && order[i].call == call
  {
  }

  lemma SameReplyUpTo(w0: World, order: seq<Commit>, i: nat)
    requires i < |order| && order[i].Commit?
    ensures SerialReply(w0, order[..i + 1], i) == SerialReply(w0, order, i)
  {
    assert order[..i + 1][..i] == order[..i];
  }

  lemma {:induction false} OthersAddNothing(w0: World, order: seq<Commit>, n: nat, call: Call)
    requires n <= |order| && NoneFrom(order, n, call)
    ensures OraclesOf(w0, order, call) == OraclesOf(w0, order[..n], call)
    decreases |order|
  {
    if n < |order| {
      var before := order[..|order| - 1];
      assert before[..n] == order[..n];
      OthersAddNothing(w0, before, n, call);
    } else {
      assert order[..n] == order;
    }
  }

  /**
   Any number of attempts at one call inside a run, each failing anywhere and with or without
   its effect, with calls for other volumes in flight at the same time, and the last of them
   successful: the part of the disk table that the call is about is as one fault-free call
   leaves it, up to the id the cloud chose, the answer is the same, and at most one attempt had
   an effect.
   */
  lemma RetriesConvergeAmidOthers(w0: World, run: seq<Event>, call: Call, i: nat)
    requires Sound(w0.cloud) && Undisturbed(Start(w0), run) && (!call.Create? ==> call.id in w0.cloud.usedIds)
    requires var s := Exec(Start(w0), run);
             && Amid(w0, s.commits, call)
             && i < |s.commits| && Attempt(s.commits[i], call) && NoneFrom(s.commits, i + 1, call)
             && s.commits[i].k in s.procs && s.procs[s.commits[i].k].pc.Finished?
             && !s.procs[s.commits[i].k].pc.reply.Failed?
    ensures var s := Exec(Start(w0), run);
            && EffectsAmid(w0, s.commits, call) <= 1
            && exists newId ::
                 var (clean, reply) := Solo(w0, call, FaultFree(newId));
                 SamePart(s.world.cloud, clean.cloud, call) && SameReply(s.procs[s.commits[i].k].pc.reply, reply)
  {
    var s := Exec(Start(w0), run);
    RunsLinearize(w0, run);
    ReplyIsSerial(w0, s, i);
    hide Exec, Undisturbed, Linearized;
    OrderAgrees(w0, s.commits, call);
    LastAttemptReplies(w0, s.commits, i, call);
    RetriesConverge(w0, call, OraclesOf(w0, s.commits, call));
  }

  lemma ReplyIsSerial(w0: World, s: Sys, i: nat)
    requires Linearized(w0, s) && i < |s.commits| && s.commits[i].Commit?
    requires s.commits[i].k in s.procs && s.procs[s.commits[i].k].pc.Finished?
    ensures Serial(w0, s.commits).cloud == s.world.cloud
    ensures s.procs[s.commits[i].k].pc.reply == SerialReply(w0, s.commits, i)
  {
  }
}
