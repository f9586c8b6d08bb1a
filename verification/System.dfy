/**
 The controller under concurrency: any number of calls in flight, advancing one step at a
 time in any order. At most one call per volume id, and one create per name, is in flight
 at a time (CSI specification v1.11.0, Overview, "Concurrency").
 */
module System {
  import opened Outcomes
  import opened DiskName
  import opened Cloud
  import opened Handlers
  import Capacity

  /** What a call is serialized on. */
  datatype Key = NameKey(name: string) | IdKey(id: VolumeId)

  function KeyOf(call: Call): Key {
    if call.Create? then NameKey(call.request.name) else IdKey(call.id)
  }

  datatype Proc = Proc(call: Call, oracle: Oracle, pc: Pc)

  /** A call that has done its last cloud access, only its lock write and its reply are left; or something
      that happened to the cloud from outside. */
  datatype Commit = Commit(k: nat, call: Call, oracle: Oracle) | Outside(event: Event)

  /** What the cloud was asked to do and answered, as far as the lock map is concerned; an update is hidden
      when it was executed and the answer got lost. */
  datatype Record =
    | UpdateAcknowledged(id: VolumeId)
    | UpdateRejected(id: VolumeId, range: Option<Capacity.CapacityRange>)
    | UpdateHidden(id: VolumeId, size: int)
    | AttachIssued(id: VolumeId, node: InstanceId)

  datatype Sys = Sys(world: World, procs: map<nat, Proc>, commits: seq<Commit>, records: seq<Record>)

  function Start(w: World): Sys {
    Sys(w, map[], [], [])
  }

  datatype Event =
    | Begin(k: nat, call: Call, oracle: Oracle)
    | Advance(k: nat)
    | InstanceDown(instance: InstanceId)
    | OutsideResize(id: VolumeId, size: int)

  predicate InFlight(s: Sys, k: nat) {
    k in s.procs && !s.procs[k].pc.Finished?
  }

  predicate Committed(pc: Pc) {
    pc.Finished? || pc.PutLock? || pc.RemoveLock?
  }

  /** No call in flight has this key. */
  predicate Free(s: Sys, key: Key) {
    forall k :: k in s.procs && InFlight(s, k) ==> KeyOf(s.procs[k].call) != key
  }

  /** From the cloud's side: what the call asks for in this step, and how the cloud settles it. */
  function Recorded(w: World, call: Call, o: Oracle, pc: Pc): seq<Record> {
    if call.Publish? && pc.CallAttach? then [AttachIssued(call.id, call.node)]
    else if call.Expand? && pc.CallUpdate? then
      var error := Settle(w.cloud, UpdateSize(call.id, pc.bytes), o.fate).1;
      if error == None then [UpdateAcknowledged(call.id)]
      else if error == Some(AttachedError) then [UpdateRejected(call.id, call.range)]
      else if Apply(w.cloud, UpdateSize(call.id, pc.bytes)).Ok? && o.fate.HidesEffect()
      then [UpdateHidden(call.id, pc.bytes)]
      else []
    else []
  }

  ghost function BeginCall(s: Sys, k: nat, call: Call, o: Oracle): Sys {
    s.(procs := s.procs[k := Proc(call, o, Entry(call))],
       commits := s.commits + if Committed(Entry(call)) then [Commit(k, call, o)] else [])
  }

  ghost function AdvanceCall(s: Sys, k: nat): Sys
    requires InFlight(s, k) && Fits(s.procs[k].call, s.procs[k].pc)
  {
    var p := s.procs[k];
    var (w, pc) := Step(s.world, p.call, p.oracle, p.pc);
    Sys(w, s.procs[k := p.(pc := pc)],
        s.commits + (if !Committed(p.pc) && Committed(pc) then [Commit(k, p.call, p.oracle)] else []),
        s.records + Recorded(s.world, p.call, p.oracle, p.pc))
  }

  /** The cloud after an event from outside. */
  function Changed(c: CloudState, e: Event): CloudState {
    match e
    case InstanceDown(instance) => WithoutInstance(c, instance)
    case OutsideResize(id, size) => if id in c.disks then SetDisk(c, id, c.disks[id].(size := size)) else c
    case _ => c
  }

  /** An event that is not possible in a state does nothing there, so every sequence of events is a run. */
  ghost function Next(s: Sys, e: Event): Sys {
    match e
    case Begin(k, call, o) => if k in s.procs || !Free(s, KeyOf(call)) then s else BeginCall(s, k, call, o)
    case Advance(k) =>
      if InFlight(s, k) && Fits(s.procs[k].call, s.procs[k].pc) then AdvanceCall(s, k) else s
    case _ => s.(world := s.world.(cloud := Changed(s.world.cloud, e)), commits := s.commits + [Outside(e)])
  }

  ghost function Exec(s: Sys, run: seq<Event>): Sys {
    if run == [] then s else Next(Exec(s, run[..|run| - 1]), run[|run| - 1])
  }

  /** The call has read something that the event changes and that its next step builds on. */
  predicate ReliesOn(c: CloudState, p: Proc, e: Event) {
    match e
    case InstanceDown(instance) =>
      || ((p.call.Publish? || p.call.Unpublish?) && (p.pc.CallAttach? || p.pc.CallDetach?) && p.call.node == instance)
      || (&& (p.call.Publish? || p.call.Unpublish?)
          && (p.pc.GetInstanceToPublish? || p.pc.GetInstanceToUnpublish? || p.pc.CallDetach?)
          && p.call.id in c.disks && instance in c.disks[p.call.id].attachments)
    case OutsideResize(id, _) =>
      && (p.call.Publish? || p.call.Expand?) && p.call.id == id
      && (p.pc.GetInstanceToPublish? || p.pc.CallAttach? || p.pc.CallUpdate?)
    case _ => false
  }

  /** No call in flight relies on what the event changes. */
  predicate Uninvolved(s: Sys, e: Event) {
    forall k :: k in s.procs && InFlight(s, k) ==> !ReliesOn(s.world.cloud, s.procs[k], e)
  }

  /** Throughout the run what happens from outside leaves the calls in flight alone. */
  ghost predicate Undisturbed(s: Sys, run: seq<Event>) {
    forall n :: 0 <= n < |run| ==> Uninvolved(Exec(s, run[..n]), run[n])
  }

  /** Sizes change through the driver only. */
  predicate NoOutsideResize(run: seq<Event>) {
    forall e :: e in run ==> !e.OutsideResize?
  }

  predicate NoLostReplies(run: seq<Event>) {
    forall e :: e in run && e.Begin? ==> !e.oracle.fate.HidesEffect()
  }

  /** Every call has returned. */
  predicate Quiet(s: Sys) {
    forall k :: k in s.procs ==> s.procs[k].pc.Finished?
  }

  /** The call has only its lock write and its reply left to do. */
  predicate LockWriter(p: Proc, id: VolumeId) {
    p.call.Expand? && p.call.id == id && (p.pc.PutLock? || p.pc.RemoveLock?)
  }

  /** A lock write is still to come for this volume. */
  predicate PendingWrite(s: Sys, id: VolumeId) {
    exists k :: k in s.procs && LockWriter(s.procs[k], id)
  }

  // ---------- what every run keeps ----------

  /** Handlers run their own steps, and no two calls in flight share a key. */
  predicate Disciplined(s: Sys) {
    && Sound(s.world.cloud)
    && (forall k :: k in s.procs ==> Fits(s.procs[k].call, s.procs[k].pc))
    && (forall j, k :: j in s.procs && k in s.procs && j != k && InFlight(s, j) && InFlight(s, k) ==>
          KeyOf(s.procs[j].call) != KeyOf(s.procs[k].call))
  }

  lemma StepKeepsSound(w: World, call: Call, o: Oracle, pc: Pc)
    requires Fits(call, pc) && !pc.Finished? && Sound(w.cloud)
    ensures Sound(Step(w, call, o, pc).0.cloud)
  {
  }

  lemma NextKeepsDiscipline(s: Sys, e: Event)
    requires Disciplined(s)
    ensures Disciplined(Next(s, e))
  {
    if e.Advance? && InFlight(s, e.k) {
      var p := s.procs[e.k];
      StepKeepsSound(s.world, p.call, p.oracle, p.pc);
    }
  }

  lemma {:induction false} RunsAreDisciplined(s: Sys, run: seq<Event>)
    requires Disciplined(s)
    ensures Disciplined(Exec(s, run))
  {
    if run != [] {
      RunsAreDisciplined(s, run[..|run| - 1]);
      NextKeepsDiscipline(Exec(s, run[..|run| - 1]), run[|run| - 1]);
    }
  }
}
