/**
 Every interleaving of handler steps has the outcome of running the same calls one at a
 time, in the order in which they made their mutating cloud call, or their last read when
 they made none.
 */
module Serializability {
  import opened Outcomes
  import opened DiskName
  import opened Capacity
  import opened Cloud
  import opened Handlers
  import opened System

  // ---------- the serial execution ----------

  /** The world after a call, run alone, or after an event from outside. */
  ghost function After(w: World, c: Commit): World {
    match c
    case Commit(_, call, oracle) => Solo(w, call, oracle).0
    case Outside(event) => w.(cloud := Changed(w.cloud, event))
  }

  /** The world after the calls and the events from outside, one at a time. */
  ghost function Serial(w: World, order: seq<Commit>): World {
    if order == [] then w else After(Serial(w, order[..|order| - 1]), order[|order| - 1])
  }

  /** The reply of the call at place i. */
  ghost function SerialReply(w: World, order: seq<Commit>, i: nat): Reply
    requires i < |order| && order[i].Commit?
  {
    Solo(Serial(w, order[..i]), order[i].call, order[i].oracle).1
  }

  lemma SerialAppend(w: World, order: seq<Commit>, c: Commit)
    ensures Serial(w, order + [c]) == After(Serial(w, order), c)
    ensures c.Commit? ==> SerialReply(w, order + [c], |order|) == Solo(Serial(w, order), c.call, c.oracle).1
    ensures forall i: nat :: i < |order| && order[i].Commit? ==>
              SerialReply(w, order + [c], i) == SerialReply(w, order, i)
  {
    var longer := order + [c];
    assert longer[..|longer| - 1] == order && longer[..|order|] == order;
    forall i: nat | i < |order| && order[i].Commit? ensures SerialReply(w, longer, i) == SerialReply(w, order, i) {
      assert longer[..i] == order[..i];
    }
  }

  // ---------- what a handler knows ----------

  /** The reads behind this step still give the answers the handler got. */
  ghost predicate Knows(w: World, call: Call, o: Oracle, pc: Pc)
    requires Fits(call, pc)
  {
    var id := if call.Create? then [] else call.id;
    match pc
    case ListByName(plan) => Entry(call) == pc
    case CallCreate(plan) => Entry(call) == ListByName(plan) && o.firstRead && ByName(w.cloud, plan.name) == {}
    case CallDelete => Entry(call) == pc
    case CheckLock => Entry(call) == pc
    case GetDiskToPublish => Entry(call) == CheckLock && id !in w.locks
    case GetInstanceToPublish(vol) => SawDisk(w, call, o, vol)
    case CallAttach(vol) =>
      SawDisk(w, call, o, vol) && o.secondRead && call.node in w.cloud.instances && vol.attachments == map[]
    case GetDiskToUnpublish => Entry(call) == pc
    case GetInstanceToUnpublish => SawAttached(w, call, o)
    case CallDetach => SawAttached(w, call, o) && o.secondRead && call.node in w.cloud.instances
    case GetDiskToExpand => Entry(call) == pc
    case CallUpdate(bytes) =>
      && Entry(call) == GetDiskToExpand && o.firstRead && id in w.cloud.disks
      && ExtractStorage(call.range, MaximumVolumeSize(w.cloud.disks[id].EffectiveBlockSize())) == Some(bytes)
      && w.cloud.disks[id].size < bytes
    case _ => true
  }

  predicate SawDisk(w: World, call: Call, o: Oracle, vol: Disk)
    requires call.Publish?
  {
    && Entry(call) == CheckLock && call.id !in w.locks
    && o.firstRead && call.id in w.cloud.disks && w.cloud.disks[call.id] == vol
  }

  predicate SawAttached(w: World, call: Call, o: Oracle)
    requires call.Unpublish?
  {
    && Entry(call) == GetDiskToUnpublish
    && o.firstRead && call.id in w.cloud.disks && w.cloud.disks[call.id].attachments != map[]
  }

  /** A handler that starts over in such a world gets to the same step. */
  lemma KnowsReplays(w: World, call: Call, o: Oracle, pc: Pc)
    requires Fits(call, pc) && !Committed(pc) && Knows(w, call, o, pc)
    ensures RunFrom(w, call, o, pc) == Solo(w, call, o)
  {
    match pc
    case CallCreate(plan) =>
      assert Step(w, call, o, ListByName(plan)) == (w, pc);
    case GetDiskToPublish => PublishReplays(w, call, o);
    case GetInstanceToPublish(vol) => PublishReplays(w, call, o);
    case CallAttach(vol) =>
      PublishReplays(w, call, o);
      assert Step(w, call, o, GetInstanceToPublish(vol)) == (w, pc);
    case GetInstanceToUnpublish =>
      assert Step(w, call, o, GetDiskToUnpublish) == (w, pc);
    case CallDetach =>
      assert Step(w, call, o, GetDiskToUnpublish) == (w, GetInstanceToUnpublish);
      assert Step(w, call, o, GetInstanceToUnpublish) == (w, pc);
    case CallUpdate(bytes) =>
      assert Step(w, call, o, GetDiskToExpand) == (w, pc);
    case _ =>
  }

  lemma PublishReplays(w: World, call: Call, o: Oracle)
    requires call.Publish? && Entry(call) == CheckLock && call.id !in w.locks
    ensures RunFrom(w, call, o, GetDiskToPublish) == Solo(w, call, o)
    ensures o.firstRead && call.id in w.cloud.disks ==>
            RunFrom(w, call, o, GetInstanceToPublish(w.cloud.disks[call.id])) == Solo(w, call, o)
  {
    assert Step(w, call, o, CheckLock) == (w, GetDiskToPublish);
    if o.firstRead && call.id in w.cloud.disks {
      assert Step(w, call, o, GetDiskToPublish) == (w, GetInstanceToPublish(w.cloud.disks[call.id]));
    }
  }

  // ---------- one step ----------

  /** The reply a call is bound to give once it has committed. */
  function Promise(call: Call, pc: Pc): Reply
    requires Fits(call, pc) && Committed(pc)
  {
    match pc
    case Finished(reply) => reply
    case PutLock => Failed(Internal)
    case RemoveLock(bytes) => Expanded(bytes, !call.block)
  }

  /** The locks once the pending write, if any, is done. */
  function Written(locks: set<VolumeId>, call: Call, pc: Pc): set<VolumeId>
    requires Fits(call, pc)
  {
    match pc
    case PutLock => locks + {call.id}
    case RemoveLock(_) => locks - {call.id}
    case _ => locks
  }

  /** A committing step, continued to the end of the call. */
  lemma CommitRuns(w: World, call: Call, o: Oracle, pc: Pc)
    requires Fits(call, pc) && !Committed(pc) && Committed(Step(w, call, o, pc).1)
    ensures var (w', pc') := Step(w, call, o, pc);
            RunFrom(w, call, o, pc) == (World(w'.cloud, Written(w.locks, call, pc')), Promise(call, pc'))
  {
    var (w', pc') := Step(w, call, o, pc);
    assert w'.locks == w.locks;
    assert RunFrom(w, call, o, pc) == RunFrom(w', call, o, pc');
    if !pc'.Finished? {
      var (w'', pc'') := Step(w', call, o, pc');
      assert RunFrom(w', call, o, pc') == RunFrom(w'', call, o, pc'');
    }
  }

  /** A step that does not commit has read, and leaves the handler knowing what it read. */
  lemma ReadLearns(w: World, call: Call, o: Oracle, pc: Pc)
    requires Fits(call, pc) && !Committed(pc) && Knows(w, call, o, pc)
    requires !Committed(Step(w, call, o, pc).1)
    ensures Step(w, call, o, pc).0 == w && Knows(w, call, o, Step(w, call, o, pc).1)
  {
  }

  /** Worlds that agree on the cloud and on the volume's own lock make the same step possible. */
  lemma StepsAgree(w: World, v: World, call: Call, o: Oracle, pc: Pc)
    requires Fits(call, pc) && !Committed(pc) && w.cloud == v.cloud
    requires !call.Create? ==> (call.id in w.locks <==> call.id in v.locks)
    ensures Step(w, call, o, pc).1 == Step(v, call, o, pc).1
    ensures Step(w, call, o, pc).0.cloud == Step(v, call, o, pc).0.cloud
    ensures Step(w, call, o, pc).0.locks == w.locks && Step(v, call, o, pc).0.locks == v.locks
  {
  }

  /** Outside the volume the call is about, the two worlds are the same. */
  ghost predicate SameElsewhere(w: World, v: World, key: Key) {
    && (forall id :: IdKey(id) != key ==> (id in v.locks <==> id in w.locks))
    && CloudSameElsewhere(w.cloud, v.cloud, key)
  }

  lemma CommitIsLocal(w: World, call: Call, o: Oracle, pc: Pc)
    requires Sound(w.cloud) && Fits(call, pc) && !Committed(pc)
    requires Knows(w, call, o, pc)
    ensures var (w', pc') := Step(w, call, o, pc);
            SameElsewhere(w, World(w'.cloud, Written(w.locks, call, pc')), KeyOf(call))
  {
    var cloud := Step(w, call, o, pc).0.cloud;
    match pc
    case CallCreate(plan) =>
      PlanKeepsName(call);
      SettledElsewhere(w.cloud, CreateDisk(o.newId, plan.NewDisk()), o.fate, KeyOf(call));
    case CallDelete => SettledElsewhere(w.cloud, DeleteDisk(call.id), o.fate, KeyOf(call));
    case CallAttach(_) =>
      SettledElsewhere(w.cloud, AttachDisk(call.id, call.node, GenDiskId(call.id)), o.fate, KeyOf(call));
    case CallDetach => SettledElsewhere(w.cloud, DetachDisk(call.id, call.node), o.fate, KeyOf(call));
    case CallUpdate(bytes) => SettledElsewhere(w.cloud, UpdateSize(call.id, bytes), o.fate, KeyOf(call));
    case _ =>
  }

  /** The cloud's part of being the same elsewhere. */
  ghost predicate CloudSameElsewhere(c: CloudState, c': CloudState, key: Key) {
    && c'.instances == c.instances
    && (forall id :: IdKey(id) != key && id in c.disks ==> id in c'.disks && c'.disks[id] == c.disks[id])
    && (forall name :: NameKey(name) != key && ByName(c, name) == {} ==> ByName(c', name) == {})
  }

  lemma SettledElsewhere(c: CloudState, m: Mutation, fate: Fate, key: Key)
    requires Sound(c)
    requires key == if m.CreateDisk? then NameKey(m.disk.name) else IdKey(m.id)
    ensures CloudSameElsewhere(c, Settle(c, m, fate).0, key)
  {
    SettleIsLocal(c, m, fate);
    NoNewNames(c, Settle(c, m, fate).0, if m.CreateDisk? then m.disk.name else "");
  }

  /** A mutating call changes no other disk, and adds none but the one it creates. */
  lemma SettleIsLocal(c: CloudState, m: Mutation, fate: Fate)
    requires Sound(c)
    ensures var c' := Settle(c, m, fate).0;
            && c'.instances == c.instances
            && (forall id :: id in c.disks && (m.CreateDisk? || id != m.id) ==>
                  id in c'.disks && c'.disks[id] == c.disks[id])
            && (forall id :: id in c'.disks ==>
                 || (id in c.disks && c'.disks[id].name == c.disks[id].name)
                 || (m.CreateDisk? && c'.disks[id] == m.disk))
  {
  }

  lemma NoNewNames(c: CloudState, c': CloudState, created: string)
    requires forall id :: id in c'.disks ==>
               (id in c.disks && c'.disks[id].name == c.disks[id].name) || c'.disks[id].name == created
    ensures forall name :: name != created && ByName(c, name) == {} ==> ByName(c', name) == {}
    ensures (forall id :: id in c'.disks ==> id in c.disks && c'.disks[id].name == c.disks[id].name) ==>
            forall name :: ByName(c, name) == {} ==> ByName(c', name) == {}
  {
    forall name, id | id in ByName(c', name) && id in c.disks && c.disks[id].name == name
      ensures ByName(c, name) != {}
    {
      assert id in ByName(c, name);
    }
  }

  lemma KnowsElsewhere(w: World, v: World, key: Key, call: Call, o: Oracle, pc: Pc)
    requires Fits(call, pc) && Knows(w, call, o, pc) && KeyOf(call) != key && SameElsewhere(w, v, key)
    ensures Knows(v, call, o, pc)
  {
    if pc.CallCreate? {
      PlanKeepsName(call);
    }
  }

  lemma PlanKeepsName(call: Call)
    requires call.Create? && Entry(call).ListByName?
    ensures NameKey(Entry(call).plan.name) == KeyOf(call)
  {
  }

  // ---------- the simulation ----------

  /** The serial locks are the driver's locks with the pending writes done. */
  ghost predicate LocksMatch(locks: set<VolumeId>, s: Sys) {
    && (forall k :: k in s.procs && s.procs[k].call.Expand? && s.procs[k].pc.PutLock? ==> s.procs[k].call.id in locks)
    && (forall k :: k in s.procs && s.procs[k].call.Expand? && s.procs[k].pc.RemoveLock? ==>
          s.procs[k].call.id !in locks)
    && (forall id :: !PendingWrite(s, id) ==> (id in locks <==> id in s.world.locks))
  }

  ghost predicate AllKnow(w: World, s: Sys)
    requires Disciplined(s)
  {
    forall k :: k in s.procs ==> Knows(w, s.procs[k].call, s.procs[k].oracle, s.procs[k].pc)
  }

  /** The i-th commit is the call it names, and its promised reply is the serial one. */
  ghost predicate RepliesMatch(w0: World, s: Sys)
    requires Disciplined(s)
  {
    forall i: nat :: i < |s.commits| && s.commits[i].Commit? ==>
      var c := s.commits[i];
      && c.k in s.procs && Committed(s.procs[c.k].pc)
      && s.procs[c.k].call == c.call && s.procs[c.k].oracle == c.oracle
      && Promise(c.call, s.procs[c.k].pc) == SerialReply(w0, s.commits, i)
  }

  /** Call k is at place i of the order. */
  predicate Places(order: seq<Commit>, i: int, k: nat) {
    0 <= i < |order| && order[i].Commit? && order[i].k == k
  }

  /** Every call that has committed is in the order, once. */
  ghost predicate EachOnce(s: Sys) {
    && (forall i, j :: 0 <= i < j < |s.commits| && s.commits[i].Commit? && s.commits[j].Commit? ==>
          s.commits[i].k != s.commits[j].k)
    && (forall k :: k in s.procs && Committed(s.procs[k].pc) ==> exists i :: Places(s.commits, i, k))
  }

  ghost predicate Linearized(w0: World, s: Sys) {
    var serial := Serial(w0, s.commits);
    && Disciplined(s)
    && serial.cloud == s.world.cloud
    && LocksMatch(serial.locks, s)
    && AllKnow(serial, s)
    && RepliesMatch(w0, s)
    && EachOnce(s)
  }

  // Call k starts or advances; every other call stays where it is.
  predicate Moves(s: Sys, s': Sys, k: nat) {
    && s'.procs.Keys == s.procs.Keys + {k}
    && (forall j :: j in s.procs && j != k ==> s'.procs[j] == s.procs[j])
    && (k in s.procs ==> s'.procs[k].call == s.procs[k].call && s'.procs[k].oracle == s.procs[k].oracle)
  }

  /** Call k takes its place in the order exactly when it commits, with the serial reply. */
  ghost predicate Ordered(w0: World, s: Sys, s': Sys, k: nat)
    requires Moves(s, s', k) && Disciplined(s) && Disciplined(s')
  {
    var p := s'.procs[k];
    if k in s.procs && Committed(s.procs[k].pc)
    then s'.commits == s.commits && Committed(p.pc) && Promise(p.call, p.pc) == Promise(p.call, s.procs[k].pc)
    else if Committed(p.pc)
    then && s'.commits == s.commits + [Commit(k, p.call, p.oracle)]
         && Solo(Serial(w0, s.commits), p.call, p.oracle).1 == Promise(p.call, p.pc)
    else s'.commits == s.commits
  }

  lemma RepliesStillMatch(w0: World, s: Sys, s': Sys, k: nat)
    requires Moves(s, s', k) && Disciplined(s) && Disciplined(s') && Ordered(w0, s, s', k)
    requires RepliesMatch(w0, s)
    ensures RepliesMatch(w0, s')
  {
    hide Solo, RunFrom, Knows, Step, Serial, SerialReply, Promise, Disciplined;
    SerialAppend(w0, s.commits, Commit(k, s'.procs[k].call, s'.procs[k].oracle));
    forall i: nat | i < |s.commits| ensures s'.commits[i] == s.commits[i] {
    }
  }

  lemma StillEachOnce(w0: World, s: Sys, s': Sys, k: nat)
    requires Moves(s, s', k) && Disciplined(s) && Disciplined(s') && Ordered(w0, s, s', k)
    requires EachOnce(s) && RepliesMatch(w0, s)
    ensures EachOnce(s')
  {
    hide Solo, RunFrom, Knows, Step, Serial, SerialReply, Promise, Disciplined;
    forall j | j in s'.procs && Committed(s'.procs[j].pc)
      ensures exists i :: Places(s'.commits, i, j)
    {
      if j in s.procs && Committed(s.procs[j].pc) {
        var i :| Places(s.commits, i, j);
        assert Places(s'.commits, i, j);
      } else {
        assert Places(s'.commits, |s.commits|, j);
      }
    }
    forall i, j | 0 <= i < j < |s'.commits| && s'.commits[i].Commit? && s'.commits[j].Commit?
      ensures s'.commits[i].k != s'.commits[j].k
    {
      assert s'.commits[i] == s.commits[i];
      assert j < |s.commits| ==> s'.commits[j] == s.commits[j];
    }
  }

  /** A call without a lock write to do, before or after, does not matter for the locks. */
  lemma LocksStillMatch(locks: set<VolumeId>, s: Sys, s': Sys, k: nat)
    requires LocksMatch(locks, s) && Moves(s, s', k) && s'.world.locks == s.world.locks
    requires k in s.procs ==> !s.procs[k].pc.PutLock? && !s.procs[k].pc.RemoveLock?
    requires !s'.procs[k].pc.PutLock? && !s'.procs[k].pc.RemoveLock?
    ensures LocksMatch(locks, s')
  {
    forall id | PendingWrite(s, id) ensures PendingWrite(s', id) {
      var j :| j in s.procs && LockWriter(s.procs[j], id);
      assert LockWriter(s'.procs[j], id);
    }
  }

  /** A committing call that owes a lock write, or none, has it done in the serial world. */
  lemma LocksAfterCommit(locks: set<VolumeId>, s: Sys, s': Sys, k: nat)
    requires Disciplined(s) && Disciplined(s') && Moves(s, s', k) && s'.world.locks == s.world.locks
    requires LocksMatch(locks, s) && InFlight(s, k) && !Committed(s.procs[k].pc)
    requires Fits(s'.procs[k].call, s'.procs[k].pc)
    ensures LocksMatch(Written(locks, s'.procs[k].call, s'.procs[k].pc), s')
  {
    hide Solo, RunFrom, Knows, Step, Disciplined;
    WritersGrow(s, s', k);
    OtherWriters(s, s', k);
  }

  lemma WritersGrow(s: Sys, s': Sys, k: nat)
    requires Moves(s, s', k) && k in s.procs && !Committed(s.procs[k].pc)
    ensures forall id :: PendingWrite(s, id) || LockWriter(s'.procs[k], id) ==> PendingWrite(s', id)
  {
    forall id | PendingWrite(s, id) ensures PendingWrite(s', id) {
      var j :| j in s.procs && LockWriter(s.procs[j], id);
      assert LockWriter(s'.procs[j], id);
    }
  }

  lemma OtherWriters(s: Sys, s': Sys, k: nat)
    requires Disciplined(s) && Moves(s, s', k) && InFlight(s, k)
    ensures forall j :: j in s'.procs && j != k && s'.procs[j].call.Expand? &&
                        (s'.procs[j].pc.PutLock? || s'.procs[j].pc.RemoveLock?) ==>
              KeyOf(s'.procs[j].call) != KeyOf(s'.procs[k].call)
  {
    forall j | j in s'.procs && j != k && s'.procs[j].call.Expand? &&
               (s'.procs[j].pc.PutLock? || s'.procs[j].pc.RemoveLock?)
      ensures KeyOf(s'.procs[j].call) != KeyOf(s'.procs[k].call)
    {
      assert InFlight(s, j);
    }
  }

  /** The pending write has been done. */
  lemma LocksAfterWrite(locks: set<VolumeId>, s: Sys, s': Sys, k: nat)
    requires Disciplined(s) && Moves(s, s', k) && LocksMatch(locks, s) && InFlight(s, k) && Committed(s.procs[k].pc)
    requires s'.world.locks == Written(s.world.locks, s.procs[k].call, s.procs[k].pc) && s'.procs[k].pc.Finished?
    ensures LocksMatch(locks, s')
  {
    var p := s.procs[k];
    assert p.call.Expand? && (p.pc.PutLock? || p.pc.RemoveLock?);
    assert p.call.id in locks <==> p.pc.PutLock?;
    hide Disciplined, Step, Entry;
    forall other | other != p.call.id && PendingWrite(s, other) ensures PendingWrite(s', other) {
      WriterStays(s, s', k, other);
    }
  }

  lemma WriterStays(s: Sys, s': Sys, k: nat, id: VolumeId)
    requires Moves(s, s', k) && PendingWrite(s, id) && k in s.procs && !LockWriter(s.procs[k], id)
    ensures PendingWrite(s', id)
  {
    var j :| j in s.procs && LockWriter(s.procs[j], id);
    assert LockWriter(s'.procs[j], id);
  }

  /** The next step of a call reads the same in the serial world. */
  lemma SameStepSerially(serial: World, s: Sys, k: nat)
    requires Disciplined(s) && InFlight(s, k) && !Committed(s.procs[k].pc)
    requires serial.cloud == s.world.cloud && LocksMatch(serial.locks, s)
    ensures var p := s.procs[k];
            var (w, pc) := Step(s.world, p.call, p.oracle, p.pc);
            var (v, pc') := Step(serial, p.call, p.oracle, p.pc);
            pc == pc' && w.cloud == v.cloud && w.locks == s.world.locks && v.locks == serial.locks
  {
    var p := s.procs[k];
    if !p.call.Create? && PendingWrite(s, p.call.id) {
      var j :| j in s.procs && LockWriter(s.procs[j], p.call.id);
      assert InFlight(s, j) && j != k;
      assert false;
    }
    StepsAgree(s.world, serial, p.call, p.oracle, p.pc);
  }

  lemma OthersStillKnow(serial: World, serial': World, s: Sys, s': Sys, k: nat)
    requires Disciplined(s) && Disciplined(s') && Moves(s, s', k) && AllKnow(serial, s) && InFlight(s, k)
    requires Committed(s'.procs[k].pc) && SameElsewhere(serial, serial', KeyOf(s.procs[k].call))
    ensures AllKnow(serial', s')
  {
    forall j | j in s'.procs ensures Knows(serial', s'.procs[j].call, s'.procs[j].oracle, s'.procs[j].pc) {
      if j != k && InFlight(s, j) {
        var p := s.procs[j];
        KnowsElsewhere(serial, serial', KeyOf(s.procs[k].call), p.call, p.oracle, p.pc);
      }
    }
  }

  lemma AllStillKnow(w: World, s: Sys, s': Sys, k: nat)
    requires Disciplined(s) && Disciplined(s') && Moves(s, s', k) && AllKnow(w, s)
    requires Knows(w, s'.procs[k].call, s'.procs[k].oracle, s'.procs[k].pc)
    ensures AllKnow(w, s')
  {
    hide Knows, Solo, RunFrom, Step;
  }

  /** What the four kinds of step have in common. */
  lemma Relinearized(w0: World, s: Sys, s': Sys, k: nat)
    requires Linearized(w0, s) && Moves(s, s', k) && Disciplined(s') && Ordered(w0, s, s', k)
    requires Serial(w0, s'.commits).cloud == s'.world.cloud
    requires LocksMatch(Serial(w0, s'.commits).locks, s') && AllKnow(Serial(w0, s'.commits), s')
    ensures Linearized(w0, s')
  {
    hide Solo, RunFrom, Knows, Step, LocksMatch, AllKnow, RepliesMatch, EachOnce, Serial;
    RepliesStillMatch(w0, s, s', k);
    StillEachOnce(w0, s, s', k);
  }

  lemma BeginLinearizes(w0: World, s: Sys, k: nat, call: Call, o: Oracle)
    requires Linearized(w0, s) && k !in s.procs && Free(s, KeyOf(call))
    ensures Linearized(w0, Next(s, Begin(k, call, o)))
  {
    NextKeepsDiscipline(s, Begin(k, call, o));
    BeginAssembles(w0, s, BeginCall(s, k, call, o), k, call, o);
  }

  lemma BeginAssembles(w0: World, s: Sys, s': Sys, k: nat, call: Call, o: Oracle)
    requires Linearized(w0, s) && k !in s.procs && s' == BeginCall(s, k, call, o) && Disciplined(s')
    ensures Linearized(w0, s')
  {
    hide Step, LocksMatch, AllKnow, RepliesMatch, EachOnce, Disciplined;
    var serial := Serial(w0, s.commits);
    RefusedAtOnce(serial, call, o);
    SerialAppend(w0, s.commits, Commit(k, call, o));
    hide Solo, RunFrom, Serial, SerialReply, Knows;
    LocksStillMatch(serial.locks, s, s', k);
    AllStillKnow(serial, s, s', k);
    Relinearized(w0, s, s', k);
  }

  /** A call knows what it needs to start, and one that is refused before its first step changes nothing. */
  lemma RefusedAtOnce(w: World, call: Call, o: Oracle)
    ensures Fits(call, Entry(call)) && Knows(w, call, o, Entry(call))
    ensures Committed(Entry(call)) ==> Entry(call).Finished? && Solo(w, call, o) == (w, Promise(call, Entry(call)))
  {
  }

  lemma AdvanceLinearizes(w0: World, s: Sys, k: nat)
    requires Linearized(w0, s) && InFlight(s, k)
    ensures Linearized(w0, Next(s, Advance(k)))
  {
    var p := s.procs[k];
    var (w, pc) := Step(s.world, p.call, p.oracle, p.pc);
    var s' := Next(s, Advance(k));
    NextKeepsDiscipline(s, Advance(k));
    assert s.commits + [] == s.commits;
    if Committed(p.pc) {
      WriteLinearizes(w0, s, s', k, w, pc);
    } else if Committed(pc) {
      CommitLinearizes(w0, s, s', k, w, pc);
    } else {
      ReadLinearizes(w0, s, s', k, w, pc);
    }
  }

  /** s' is s with call k advanced to the step and world given. */
  ghost predicate Advanced(s: Sys, s': Sys, k: nat, w: World, pc: Pc)
    requires k in s.procs
  {
    s'.world == w && s'.procs == s.procs[k := s.procs[k].(pc := pc)]
  }

  lemma ReadLinearizes(w0: World, s: Sys, s': Sys, k: nat, w: World, pc: Pc)
    requires Linearized(w0, s) && InFlight(s, k) && !Committed(s.procs[k].pc) && !Committed(pc)
    requires (w, pc) == Step(s.world, s.procs[k].call, s.procs[k].oracle, s.procs[k].pc)
    requires Advanced(s, s', k, w, pc) && s'.commits == s.commits && Disciplined(s')
    ensures Linearized(w0, s')
  {
    hide Solo, RunFrom, Step, Knows, LocksMatch, RepliesMatch, EachOnce;
    var serial := Serial(w0, s.commits);
    SameStepSerially(serial, s, k);
    ReadLearns(serial, s.procs[k].call, s.procs[k].oracle, s.procs[k].pc);
    ReadAssembles(w0, s, s', k);
  }

  lemma ReadAssembles(w0: World, s: Sys, s': Sys, k: nat)
    requires Linearized(w0, s) && Disciplined(s') && InFlight(s, k) && Moves(s, s', k)
    requires !Committed(s.procs[k].pc) && !Committed(s'.procs[k].pc)
    requires s'.world == s.world && s'.commits == s.commits
    requires Knows(Serial(w0, s.commits), s'.procs[k].call, s'.procs[k].oracle, s'.procs[k].pc)
    ensures Linearized(w0, s')
  {
    hide Solo, RunFrom, Step, Knows, LocksMatch, AllKnow, RepliesMatch, EachOnce, Disciplined;
    LocksStillMatch(Serial(w0, s.commits).locks, s, s', k);
    AllStillKnow(Serial(w0, s.commits), s, s', k);
    Relinearized(w0, s, s', k);
  }

  lemma CommitLinearizes(w0: World, s: Sys, s': Sys, k: nat, w: World, pc: Pc)
    requires Linearized(w0, s) && InFlight(s, k) && !Committed(s.procs[k].pc) && Committed(pc)
    requires (w, pc) == Step(s.world, s.procs[k].call, s.procs[k].oracle, s.procs[k].pc)
    requires Advanced(s, s', k, w, pc) && Disciplined(s')
    requires s'.commits == s.commits + [Commit(k, s.procs[k].call, s.procs[k].oracle)]
    ensures Linearized(w0, s')
  {
    hide Solo, RunFrom, Step, Knows, LocksMatch, RepliesMatch, EachOnce, SameElsewhere;
    var serial := Serial(w0, s.commits);
    var p := s.procs[k];
    SameStepSerially(serial, s, k);
    KnowsReplays(serial, p.call, p.oracle, p.pc);
    CommitRuns(serial, p.call, p.oracle, p.pc);
    CommitIsLocal(serial, p.call, p.oracle, p.pc);
    CommitAssembles(w0, s, s', k);
  }

  lemma CommitAssembles(w0: World, s: Sys, s': Sys, k: nat)
    requires Linearized(w0, s) && Disciplined(s') && InFlight(s, k) && Moves(s, s', k)
    requires !Committed(s.procs[k].pc) && Committed(s'.procs[k].pc) && s'.world.locks == s.world.locks
    requires s'.commits == s.commits + [Commit(k, s'.procs[k].call, s'.procs[k].oracle)]
    requires var serial, p := Serial(w0, s.commits), s'.procs[k];
             var after := World(s'.world.cloud, Written(serial.locks, p.call, p.pc));
             Solo(serial, p.call, p.oracle) == (after, Promise(p.call, p.pc))
             && SameElsewhere(serial, after, KeyOf(p.call))
    ensures Linearized(w0, s')
  {
    assert Fits(s'.procs[k].call, s'.procs[k].pc);
    hide Solo, RunFrom, Step, Knows, LocksMatch, AllKnow, RepliesMatch, EachOnce, Disciplined;
    var serial, p := Serial(w0, s.commits), s'.procs[k];
    SerialAppend(w0, s.commits, Commit(k, p.call, p.oracle));
    OthersStillKnow(serial, Serial(w0, s'.commits), s, s', k);
    LocksAfterCommit(serial.locks, s, s', k);
    Relinearized(w0, s, s', k);
  }

  lemma WriteLinearizes(w0: World, s: Sys, s': Sys, k: nat, w: World, pc: Pc)
    requires Linearized(w0, s) && InFlight(s, k) && Committed(s.procs[k].pc)
    requires (w, pc) == Step(s.world, s.procs[k].call, s.procs[k].oracle, s.procs[k].pc)
    requires Advanced(s, s', k, w, pc) && s'.commits == s.commits && Disciplined(s')
    ensures Linearized(w0, s')
  {
    hide Solo, RunFrom, Knows, LocksMatch, AllKnow, RepliesMatch, EachOnce;
    WriteAssembles(w0, s, s', k);
  }

  lemma WriteAssembles(w0: World, s: Sys, s': Sys, k: nat)
    requires Linearized(w0, s) && Disciplined(s') && InFlight(s, k) && Moves(s, s', k)
    requires Committed(s.procs[k].pc) && s'.procs[k].pc == Finished(Promise(s.procs[k].call, s.procs[k].pc))
    requires s'.commits == s.commits && s'.world.cloud == s.world.cloud
    requires s'.world.locks == Written(s.world.locks, s.procs[k].call, s.procs[k].pc)
    ensures Linearized(w0, s')
  {
    hide Solo, RunFrom, Step, LocksMatch, AllKnow, RepliesMatch, EachOnce, Disciplined;
    LocksAfterWrite(Serial(w0, s.commits).locks, s, s', k);
    AllStillKnow(Serial(w0, s.commits), s, s', k);
    Relinearized(w0, s, s', k);
  }

  // ---------- events from outside ----------

  /** A call that does not rely on what the event changes knows what it knew. */
  lemma KnowsUndisturbed(w: World, p: Proc, e: Event)
    requires Fits(p.call, p.pc) && Knows(w, p.call, p.oracle, p.pc) && !ReliesOn(w.cloud, p, e)
    ensures Knows(w.(cloud := Changed(w.cloud, e)), p.call, p.oracle, p.pc)
  {
    NoNewNames(w.cloud, Changed(w.cloud, e), "");
    if e.InstanceDown? && (p.call.Publish? || p.call.Unpublish?) && p.call.id in w.cloud.disks {
      var attachments := w.cloud.disks[p.call.id].attachments;
      if e.instance !in attachments {
        assert attachments - {e.instance} == attachments;
      }
    }
  }

  lemma AllKnowUndisturbed(w: World, s: Sys, e: Event)
    requires Disciplined(s) && AllKnow(w, s) && Uninvolved(s, e) && w.cloud == s.world.cloud
    ensures forall k :: k in s.procs ==>
              Knows(w.(cloud := Changed(w.cloud, e)), s.procs[k].call, s.procs[k].oracle, s.procs[k].pc)
  {
    var w' := w.(cloud := Changed(w.cloud, e));
    forall k | k in s.procs ensures Knows(w', s.procs[k].call, s.procs[k].oracle, s.procs[k].pc) {
      if InFlight(s, k) { KnowsUndisturbed(w, s.procs[k], e); }
    }
  }

  lemma OutsideLinearizes(w0: World, s: Sys, e: Event)
    requires Linearized(w0, s) && (e.InstanceDown? || e.OutsideResize?) && Uninvolved(s, e)
    ensures Linearized(w0, Next(s, e))
  {
    var s', serial := Next(s, e), Serial(w0, s.commits);
    NextKeepsDiscipline(s, e);
    SerialAppend(w0, s.commits, Outside(e));
    AllKnowUndisturbed(serial, s, e);
    hide Solo, RunFrom, Knows, Step, Serial, SerialReply, Changed, Disciplined;
    LocksUntouched(serial.locks, s, s');
    OutsideKeepsOrder(w0, s, s', e);
  }

  lemma LocksUntouched(locks: set<VolumeId>, s: Sys, s': Sys)
    requires LocksMatch(locks, s) && s'.procs == s.procs && s'.world.locks == s.world.locks
    ensures LocksMatch(locks, s')
  {
    forall id ensures PendingWrite(s', id) <==> PendingWrite(s, id) {
    }
  }

  lemma OutsideKeepsOrder(w0: World, s: Sys, s': Sys, e: Event)
    requires Disciplined(s) && Disciplined(s') && RepliesMatch(w0, s) && EachOnce(s)
    requires s'.procs == s.procs && s'.commits == s.commits + [Outside(e)]
    ensures RepliesMatch(w0, s') && EachOnce(s')
  {
    SerialAppend(w0, s.commits, Outside(e));
    hide Solo, RunFrom, Serial, SerialReply, Promise, Disciplined;
    forall i: nat | i < |s.commits| ensures s'.commits[i] == s.commits[i] {
    }
    forall k | k in s.procs && Committed(s.procs[k].pc) ensures exists i :: Places(s'.commits, i, k) {
      var i :| Places(s.commits, i, k);
      assert Places(s'.commits, i, k);
    }
  }

  // ---------- every run ----------

  lemma {:induction false} RunsLinearize(w0: World, run: seq<Event>)
    requires Sound(w0.cloud) && Undisturbed(Start(w0), run)
    ensures Linearized(w0, Exec(Start(w0), run))
  {
    if run == [] {
      NothingYet(w0);
    } else {
      hide Linearized, Undisturbed, Uninvolved, Next;
      var before, e := run[..|run| - 1], run[|run| - 1];
      LastUninvolved(Start(w0), run);
      UndisturbedBefore(Start(w0), run, |before|);
      RunsLinearize(w0, before);
      NextLinearizes(w0, Exec(Start(w0), before), e);
    }
  }

  lemma NothingYet(w0: World)
    requires Sound(w0.cloud)
    ensures Linearized(w0, Start(w0))
  {
  }

  lemma LastUninvolved(s: Sys, run: seq<Event>)
    requires run != [] && Undisturbed(s, run)
    ensures Uninvolved(Exec(s, run[..|run| - 1]), run[|run| - 1])
  {
    hide Exec, Uninvolved;
  }

  lemma NextLinearizes(w0: World, s: Sys, e: Event)
    requires Linearized(w0, s) && Uninvolved(s, e)
    ensures Linearized(w0, Next(s, e))
  {
    match e
    case Begin(k, call, o) =>
      if k !in s.procs && Free(s, KeyOf(call)) {
        BeginLinearizes(w0, s, k, call, o);
      }
    case Advance(k) =>
      if InFlight(s, k) {
        AdvanceLinearizes(w0, s, k);
      }
    case _ => OutsideLinearizes(w0, s, e);
  }

  lemma UndisturbedBefore(s: Sys, run: seq<Event>, n: nat)
    requires n <= |run| && Undisturbed(s, run)
    ensures Undisturbed(s, run[..n])
  {
    forall i | 0 <= i < n ensures Uninvolved(Exec(s, run[..n][..i]), run[..n][i]) {
      assert run[..n][..i] == run[..i];
    }
  }

  /**
   Whatever the interleaving, with instances that disappear and disks resized from outside
   as long as no call in flight is about them: once every call has returned, the disk table,
   the lock map and all replies are those of the same calls run one at a time in the order of
   their commits, each call exactly once, and of the same events from outside in between.
   */
  lemma InterleavingsSerialize(w0: World, run: seq<Event>)
    requires Sound(w0.cloud) && Undisturbed(Start(w0), run) && Quiet(Exec(Start(w0), run))
    ensures var s := Exec(Start(w0), run);
            && Serial(w0, s.commits) == s.world
            && (forall i: nat :: i < |s.commits| && s.commits[i].Commit? ==>
                  var c := s.commits[i];
                  && c.k in s.procs && s.procs[c.k].call == c.call && s.procs[c.k].oracle == c.oracle
                  && s.procs[c.k].pc == Finished(SerialReply(w0, s.commits, i)))
            && (forall i, j :: 0 <= i < j < |s.commits| && s.commits[i].Commit? && s.commits[j].Commit? ==>
                  s.commits[i].k != s.commits[j].k)
            && (forall k :: k in s.procs ==> exists i :: Places(s.commits, i, k))
            && Outsiders(s.commits) == OutsideEvents(run)
  {
    RunsLinearize(w0, run);
    OutsidersAreThoseOf(Start(w0), run);
    var s := Exec(Start(w0), run);
    forall id ensures !PendingWrite(s, id) {
    }
    assert Serial(w0, s.commits).locks == s.world.locks;
    forall i: nat | i < |s.commits| && s.commits[i].Commit?
      ensures s.procs[s.commits[i].k].pc == Finished(SerialReply(w0, s.commits, i))
    {
      assert s.procs[s.commits[i].k].pc.Finished?;
    }
  }

  /** The events from outside in the order. */
  function Outsiders(order: seq<Commit>): seq<Event> {
    if order == [] then []
    else
      var last := order[|order| - 1];
      Outsiders(order[..|order| - 1]) + if last.Outside? then [last.event] else []
  }

  function OutsideEvents(run: seq<Event>): seq<Event> {
    if run == [] then []
    else
      var last := run[|run| - 1];
      OutsideEvents(run[..|run| - 1]) + if last.InstanceDown? || last.OutsideResize? then [last] else []
  }

  lemma {:induction false} OutsidersAreThoseOf(s: Sys, run: seq<Event>)
    requires Outsiders(s.commits) == []
    ensures Outsiders(Exec(s, run).commits) == OutsideEvents(run)
  {
    if run != [] {
      var before := Exec(s, run[..|run| - 1]);
      OutsidersAreThoseOf(s, run[..|run| - 1]);
      OutsidersGrow(before, run[|run| - 1]);
    }
  }

  lemma OutsidersGrow(s: Sys, e: Event)
    ensures Outsiders(Next(s, e).commits) ==
            Outsiders(s.commits) + if e.InstanceDown? || e.OutsideResize? then [e] else []
  {
    var s' := Next(s, e);
    hide Step, Changed, Entry;
    if s'.commits != s.commits {
      assert s'.commits[..|s'.commits| - 1] == s.commits;
    }
  }

  /**
   The condition cannot be dropped: when the node disappears between a publish's read of it
   and its attach call, the reply is Internal, while a publish before the event succeeds and
   one after it answers NotFound.
   */
  lemma DisturbedPublish(w: World, id: VolumeId, node: InstanceId, o: Oracle)
    requires id != [] && node != "" && id !in w.locks && node in w.cloud.instances
    requires id in w.cloud.disks && w.cloud.disks[id].attachments == map[]
    requires o.firstRead && o.secondRead && o.fate == Acknowledged
    ensures var publish, gone := Publish(id, node, true, false), InstanceDown(node);
            var reading := [Begin(0, publish, o), Advance(0), Advance(0), Advance(0)];
            var s := Next(Next(Exec(Start(w), reading), gone), Advance(0));
            && !Uninvolved(Exec(Start(w), reading), gone)
            && 0 in s.procs && s.procs[0].pc == Finished(Failed(Internal))
            && Solo(w, publish, o).1.Published?
            && Solo(w.(cloud := Changed(w.cloud, gone)), publish, o).1 == Failed(NotFound)
  {
    var publish, gone := Publish(id, node, true, false), InstanceDown(node);
    var reading := [Begin(0, publish, o), Advance(0), Advance(0), Advance(0)];
    var vol := w.cloud.disks[id];
    PublishReads(w, id, node, o, reading);
    var after := w.(cloud := Changed(w.cloud, gone));
    assert after.cloud.disks[id].attachments == map[];
    AttachFails(w, publish, o, vol, gone);
    hide Exec, Next, WithoutInstance;
    assert !Uninvolved(Exec(Start(w), reading), gone) by { NamesTheNode(Exec(Start(w), reading), node); }
    PublishAnswers(w, publish, o);
    PublishAnswers(after, publish, o);
  }

  lemma NamesTheNode(s: Sys, node: InstanceId)
    requires InFlight(s, 0) && s.procs[0].call.Publish? && s.procs[0].call.node == node && s.procs[0].pc.CallAttach?
    ensures !Uninvolved(s, InstanceDown(node))
  {
  }

  lemma PublishAnswers(w: World, publish: Call, o: Oracle)
    requires publish.Publish? && Entry(publish) == CheckLock && publish.id !in w.locks
    requires publish.id in w.cloud.disks && w.cloud.disks[publish.id].attachments == map[]
    requires o.firstRead && o.secondRead && o.fate == Acknowledged
    ensures Solo(w, publish, o).1 ==
            if publish.node in w.cloud.instances then Published(w.cloud.disks[publish.id].name) else Failed(NotFound)
  {
    var vol := w.cloud.disks[publish.id];
    PublishReplays(w, publish, o);
    Unfold(w, publish, o, GetInstanceToPublish(vol));
    Unfold(w, publish, o, CallAttach(vol));
  }

  /** The attach call of a publish whose node has gone. */
  lemma AttachFails(w: World, publish: Call, o: Oracle, vol: Disk, gone: Event)
    requires publish.Publish? && gone == InstanceDown(publish.node) && o.fate == Acknowledged
    ensures var s := Sys(w, map[0 := Proc(publish, o, CallAttach(vol))], [], []);
            var s' := Next(Next(s, gone), Advance(0));
            0 in s'.procs && s'.procs[0].pc == Finished(Failed(Internal))
  {
  }

  lemma PublishReads(w: World, id: VolumeId, node: InstanceId, o: Oracle, run: seq<Event>)
    requires id != [] && node != "" && id !in w.locks && node in w.cloud.instances
    requires id in w.cloud.disks && w.cloud.disks[id].attachments == map[] && o.firstRead && o.secondRead
    requires run == [Begin(0, Publish(id, node, true, false), o), Advance(0), Advance(0), Advance(0)]
    ensures var p := Proc(Publish(id, node, true, false), o, CallAttach(w.cloud.disks[id]));
            Exec(Start(w), run) == Sys(w, map[0 := p], [], [])
  {
    var publish := Publish(id, node, true, false);
    var vol := w.cloud.disks[id];
    PublishBegins(w, publish, o);
    PublishSteps(w, publish, o, vol);
    hide Next, Step, Exec;
    ExecSnoc(Start(w), [], run[0]);
    ExecSnoc(Start(w), [run[0]], run[1]);
    ExecSnoc(Start(w), [run[0], run[1]], run[2]);
    ExecSnoc(Start(w), [run[0], run[1], run[2]], run[3]);
    assert [] + [run[0]] == [run[0]] && [run[0]] + [run[1]] == [run[0], run[1]];
    assert [run[0], run[1]] + [run[2]] == [run[0], run[1], run[2]] && [run[0], run[1], run[2]] + [run[3]] == run;
  }

  lemma ExecSnoc(s: Sys, run: seq<Event>, e: Event)
    ensures Exec(s, []) == s && Exec(s, run + [e]) == Next(Exec(s, run), e)
  {
    assert (run + [e])[..|run|] == run;
  }

  lemma PublishBegins(w: World, publish: Call, o: Oracle)
    requires publish.Publish? && Entry(publish) == CheckLock
    ensures Next(Start(w), Begin(0, publish, o)) == Sys(w, map[0 := Proc(publish, o, CheckLock)], [], [])
  {
  }

  lemma PublishSteps(w: World, publish: Call, o: Oracle, vol: Disk)
    requires publish.Publish? && publish.id !in w.locks && publish.node in w.cloud.instances
    requires publish.id in w.cloud.disks && w.cloud.disks[publish.id] == vol && vol.attachments == map[]
    requires o.firstRead && o.secondRead
    ensures var s := Sys(w, map[0 := Proc(publish, o, CheckLock)], [], []);
            Next(Next(Next(s, Advance(0)), Advance(0)), Advance(0))
            == s.(procs := map[0 := Proc(publish, o, CallAttach(vol))])
  {
    ReadsOn(w, publish, o, CheckLock, GetDiskToPublish);
    ReadsOn(w, publish, o, GetDiskToPublish, GetInstanceToPublish(vol));
    ReadsOn(w, publish, o, GetInstanceToPublish(vol), CallAttach(vol));
  }

  /** A call on its own, one read further. */
  lemma ReadsOn(w: World, call: Call, o: Oracle, pc: Pc, pc': Pc)
    requires Fits(call, pc) && !Committed(pc) && call.Publish? && !pc.CallAttach?
    requires Step(w, call, o, pc) == (w, pc') && !Committed(pc')
    ensures Next(Sys(w, map[0 := Proc(call, o, pc)], [], []), Advance(0)) ==
            Sys(w, map[0 := Proc(call, o, pc')], [], [])
  {
  }

  /** What a call in flight answers, and leaves behind, when an instance goes down before its next step. */
  ghost function Disturbed(w: World, call: Call, o: Oracle, pc: Pc, gone: Event): (World, Reply)
    requires Fits(call, pc)
  {
    RunFrom(w.(cloud := Changed(w.cloud, gone)), call, o, pc)
  }

  /** The call first, then the event. */
  ghost function CallFirst(w: World, call: Call, o: Oracle, gone: Event): (World, Reply) {
    var (v, reply) := Solo(w, call, o);
    (v.(cloud := Changed(v.cloud, gone)), reply)
  }

  /** The event first, then the call. */
  ghost function EventFirst(w: World, call: Call, o: Oracle, gone: Event): (World, Reply) {
    Solo(w.(cloud := Changed(w.cloud, gone)), call, o)
  }

  /** The mutating call would have gone through, and answers NotFound because its instance has gone. */
  predicate Undone(w: World, call: Call, o: Oracle, pc: Pc, gone: Event) {
    && gone.InstanceDown? && o.fate == Acknowledged
    && (|| (call.Publish? && pc.CallAttach? && call.node == gone.instance)
        || (call.Unpublish? && pc.CallDetach? && call.node == gone.instance
            && call.id in w.cloud.disks && call.node in w.cloud.disks[call.id].attachments))
  }

  /**
   When an instance goes down while a publish or unpublish is in flight, the outcome is that of
   one of the two serial orders of call and event, except exactly when the call's own instance
   goes down right before an attach or detach call that would have been acknowledged.
   */
  lemma DisturbedExactly(w: World, call: Call, o: Oracle, pc: Pc, gone: Event)
    requires (call.Publish? || call.Unpublish?) && gone.InstanceDown?
    requires Fits(call, pc) && !Committed(pc) && Knows(w, call, o, pc)
    ensures Disturbed(w, call, o, pc, gone) in {CallFirst(w, call, o, gone), EventFirst(w, call, o, gone)} <==>
            !Undone(w, call, o, pc, gone)
  {
    var p := Proc(call, o, pc);
    if !ReliesOn(w.cloud, p, gone) {
      KnowsUndisturbed(w, p, gone);
      KnowsReplays(w.(cloud := Changed(w.cloud, gone)), call, o, pc);
    } else if pc.GetInstanceToPublish? {
      DisturbedRead(w, call, o, pc.vol, gone);
    } else if pc.CallAttach? {
      DisturbedAttach(w, call, o, pc.vol, gone);
    } else {
      DisturbedUnpublish(w, call, o, pc, gone);
    }
  }

  /** A publish that has seen the disk attached to the instance that goes down. */
  lemma DisturbedRead(w: World, call: Call, o: Oracle, vol: Disk, gone: Event)
    requires call.Publish? && gone.InstanceDown? && Knows(w, call, o, GetInstanceToPublish(vol))
    requires gone.instance in vol.attachments
    ensures Disturbed(w, call, o, GetInstanceToPublish(vol), gone) in
            {CallFirst(w, call, o, gone), EventFirst(w, call, o, gone)}
  {
    var w' := w.(cloud := Changed(w.cloud, gone));
    PublishReplays(w, call, o);
    Unfold(w, call, o, GetInstanceToPublish(vol));
    Unfold(w', call, o, GetInstanceToPublish(vol));
    if call.node == gone.instance {
      PublishReplays(w', call, o);
      Unfold(w', call, o, GetInstanceToPublish(w'.cloud.disks[call.id]));
    }
  }

  lemma DisturbedAttach(w: World, call: Call, o: Oracle, vol: Disk, gone: Event)
    requires call.Publish? && gone == InstanceDown(call.node) && Knows(w, call, o, CallAttach(vol))
    ensures Disturbed(w, call, o, CallAttach(vol), gone) in {CallFirst(w, call, o, gone), EventFirst(w, call, o, gone)}
            <==> o.fate != Acknowledged
  {
    var w' := w.(cloud := Changed(w.cloud, gone));
    PublishReplays(w, call, o);
    Unfold(w, call, o, GetInstanceToPublish(vol));
    Unfold(w, call, o, CallAttach(vol));
    Unfold(w', call, o, CallAttach(vol));
    PublishReplays(w', call, o);
    Unfold(w', call, o, GetInstanceToPublish(w'.cloud.disks[call.id]));
    AttachThenGone(w.cloud, call.id, call.node, GenDiskId(call.id));
  }

  /** What a call changes in the attachments to an instance is gone with the instance. */
  lemma ThenGone(c: CloudState, id: VolumeId, node: InstanceId, attachments: map<InstanceId, string>)
    requires id in c.disks && attachments - {node} == c.disks[id].attachments - {node}
    ensures WithoutInstance(SetDisk(c, id, c.disks[id].(attachments := attachments)), node) == WithoutInstance(c, node)
  {
  }

  lemma AttachThenGone(c: CloudState, id: VolumeId, node: InstanceId, name: string)
    requires id in c.disks
    ensures var attachments := c.disks[id].attachments[node := name];
            WithoutInstance(SetDisk(c, id, c.disks[id].(attachments := attachments)), node) == WithoutInstance(c, node)
  {
    var attachments := c.disks[id].attachments;
    assert attachments[node := name] - {node} == attachments - {node};
    ThenGone(c, id, node, attachments[node := name]);
  }

  lemma DetachThenGone(c: CloudState, id: VolumeId, node: InstanceId)
    requires id in c.disks
    ensures var attachments := c.disks[id].attachments - {node};
            WithoutInstance(SetDisk(c, id, c.disks[id].(attachments := attachments)), node) == WithoutInstance(c, node)
  {
    var attachments := c.disks[id].attachments;
    assert attachments - {node} - {node} == attachments - {node};
    ThenGone(c, id, node, attachments - {node});
  }

  lemma DisturbedUnpublish(w: World, call: Call, o: Oracle, pc: Pc, gone: Event)
    requires call.Unpublish? && gone.InstanceDown? && Fits(call, pc) && !Committed(pc) && Knows(w, call, o, pc)
    requires ReliesOn(w.cloud, Proc(call, o, pc), gone)
    ensures Disturbed(w, call, o, pc, gone) in {CallFirst(w, call, o, gone), EventFirst(w, call, o, gone)} <==>
            !Undone(w, call, o, pc, gone)
  {
    if pc == CallDetach {
      DisturbedDetach(w, call, o, gone);
    } else {
      var w' := w.(cloud := Changed(w.cloud, gone));
      DetachedOrNot(w', call, o);
      if w'.cloud.disks[call.id].attachments == map[] && call.node != gone.instance {
        OnlyTheGone(w.cloud.disks[call.id].attachments, gone.instance, call.node);
        UnpublishUnfolds(w, call, o);
      } else {
        UnpublishUnfolds(w', call, o);
      }
    }
  }

  lemma OnlyTheGone(attachments: map<InstanceId, string>, gone: InstanceId, node: InstanceId)
    requires attachments - {gone} == map[] && node != gone
    ensures node !in attachments
  {
    assert node in attachments ==> node in attachments - {gone};
  }

  /** From its read of the instance on. */
  lemma DetachedOrNot(w: World, call: Call, o: Oracle)
    requires call.Unpublish? && call.id in w.cloud.disks
    ensures RunFrom(w, call, o, GetInstanceToUnpublish) ==
            if !o.secondRead then (w, Failed(Unavailable))
            else if call.node !in w.cloud.instances then (w, Unpublished)
            else
              var (cloud, error) := Settle(w.cloud, DetachDisk(call.id, call.node), o.fate);
              (w.(cloud := cloud), if error.Some? then Failed(Internal) else Unpublished)
  {
    Unfold(w, call, o, GetInstanceToUnpublish);
    Unfold(w, call, o, CallDetach);
  }

  lemma DisturbedDetach(w: World, call: Call, o: Oracle, gone: Event)
    requires call.Unpublish? && gone.InstanceDown? && Knows(w, call, o, CallDetach)
    requires ReliesOn(w.cloud, Proc(call, o, CallDetach), gone)
    ensures Disturbed(w, call, o, CallDetach, gone) in {CallFirst(w, call, o, gone), EventFirst(w, call, o, gone)} <==>
            !Undone(w, call, o, CallDetach, gone)
  {
    var w' := w.(cloud := Changed(w.cloud, gone));
    var attachments := w.cloud.disks[call.id].attachments;
    Unfold(w', call, o, CallDetach);
    UnpublishUnfolds(w, call, o);
    UnpublishUnfolds(w', call, o);
    hide RunFrom, Solo, Knows, Entry;
    if call.node == gone.instance {
      DetachThenGone(w.cloud, call.id, call.node);
    } else if attachments - {gone.instance} == map[] {
      OnlyTheGone(attachments, gone.instance, call.node);
    }
  }

  lemma UnpublishUnfolds(w: World, call: Call, o: Oracle)
    requires call.Unpublish? && Entry(call) == GetDiskToUnpublish && o.firstRead && call.id in w.cloud.disks
    ensures Solo(w, call, o) ==
            if w.cloud.disks[call.id].attachments == map[] then (w, Unpublished)
            else if !o.secondRead then (w, Failed(Unavailable))
            else if call.node !in w.cloud.instances then (w, Unpublished)
            else
              var (cloud, error) := Settle(w.cloud, DetachDisk(call.id, call.node), o.fate);
              (w.(cloud := cloud), if error.Some? then Failed(Internal) else Unpublished)
  {
    Unfold(w, call, o, GetDiskToUnpublish);
    Unfold(w, call, o, GetInstanceToUnpublish);
    Unfold(w, call, o, CallDetach);
  }

  // ---------- real time ----------

  lemma {:induction false} CommitsOnlyGrow(s: Sys, run: seq<Event>)
    ensures s.commits <= Exec(s, run).commits
  {
    if run != [] {
      CommitsOnlyGrow(s, run[..|run| - 1]);
    }
  }

  lemma {:induction false} ExecConcat(s: Sys, a: seq<Event>, b: seq<Event>)
    ensures Exec(s, a + b) == Exec(Exec(s, a), b)
  {
    hide Next;
    if b == [] {
      assert a + b == a;
    } else {
      var run := a + b;
      assert run[..|run| - 1] == a + b[..|b| - 1];
      ExecConcat(s, a, b[..|b| - 1]);
    }
  }

  /** A call that has returned before another begins comes before it in the serial order. */
  lemma OrderRespectsRealTime(w0: World, run: seq<Event>, more: seq<Event>, j: nat, k: nat, atJ: nat, atK: nat)
    requires Sound(w0.cloud) && Undisturbed(Start(w0), run + more)
    requires j in Exec(Start(w0), run).procs && Exec(Start(w0), run).procs[j].pc.Finished?
    requires k !in Exec(Start(w0), run).procs
    requires var order := Exec(Start(w0), run + more).commits;
             Places(order, atJ, j) && Places(order, atK, k)
    ensures atJ < atK
  {
    UndisturbedBefore(Start(w0), run + more, |run|);
    assert (run + more)[..|run|] == run;
    RunsLinearize(w0, run);
    RunsLinearize(w0, run + more);
    ExecConcat(Start(w0), run, more);
    CommitsOnlyGrow(Exec(Start(w0), run), more);
    CommitsCompare(w0, Exec(Start(w0), run), Exec(Start(w0), run + more), j, k, atJ, atK);
  }

  lemma CommitsCompare(w0: World, s: Sys, t: Sys, j: nat, k: nat, atJ: nat, atK: nat)
    requires Linearized(w0, s) && Linearized(w0, t) && s.commits <= t.commits
    requires j in s.procs && s.procs[j].pc.Finished? && k !in s.procs
    requires Places(t.commits, atJ, j) && Places(t.commits, atK, k)
    ensures atJ < atK
  {
    hide Solo, RunFrom, Serial, SerialReply, Knows, LocksMatch;
    var i :| Places(s.commits, i, j);
    assert Places(t.commits, i, j);
    assert i == atJ;
    forall at | 0 <= at < |s.commits| ensures !Places(t.commits, at, k) {
      assert t.commits[at] == s.commits[at];
    }
  }
}
