/**
 The five controller calls as a step machine: driver/controller.go cut at every cloud call
 and every access to the lock map. A handler reads, makes at most one mutating cloud call,
 and may then write to the lock map.
 */
module Handlers {
  import opened Outcomes
  import opened GoStrings
  import opened DiskName
  import opened Capacity
  import opened Cloud
  import BlockSize

  // ---------- requests ----------

  datatype AccessMode = SingleNodeWriter | OtherMode(name: string)

  datatype AccessType = Block | Mount | NoAccessType

  datatype Capability = Capability(mode: AccessMode, access: AccessType)

  datatype CreateRequest = CreateRequest(
    name: string,
    capabilities: seq<Capability>,
    parameters: map<string, string>,
    range: Option<CapacityRange>,
    requisite: Option<seq<map<string, string>>>)

  datatype Call =
    | Create(request: CreateRequest)
    | Delete(id: VolumeId)
    | Publish(id: VolumeId, node: InstanceId, hasCapability: bool, readonly: bool)
    | Unpublish(id: VolumeId, node: InstanceId)
    | Expand(id: VolumeId, range: Option<CapacityRange>, block: bool)

  datatype Code =
    InvalidArgument | OutOfRange | AlreadyExists | NotFound | FailedPrecondition | Internal | Unavailable | Unknown

  datatype Reply =
    | Failed(code: Code)
    | Created(id: VolumeId, capacity: int, region: string, zone: string)
    | Deleted
    | Published(volumeName: string)
    | Unpublished
    | Expanded(capacity: int, nodeExpansionRequired: bool)

  /** What the environment decides for one call: which reads succeed, how its mutating call
      ends, and the id of the disk it may create. */
  datatype Oracle = Oracle(firstRead: bool, secondRead: bool, fate: Fate, newId: VolumeId)

  function FaultFree(newId: VolumeId): Oracle {
    Oracle(true, true, Acknowledged, newId)
  }

  // ---------- what CreateVolume settles before it talks to the cloud ----------

  datatype Violation = UnsupportedAccessMode(name: string) | UnsupportedAccessType

  /** driver/controller.go, validateCapabilities */
  function Violations(capabilities: seq<Capability>): set<Violation> {
    (set c | c in capabilities && c.mode.OtherMode? :: UnsupportedAccessMode(c.mode.name)) +
    (set c | c in capabilities && c.access == NoAccessType :: UnsupportedAccessType)
  }

  const REGION_KEY := "failure-domain.beta.kubernetes.io/region"
  const ZONE_KEY := "failure-domain.beta.kubernetes.io/zone"

  datatype Place = Place(region: string, zone: string)

  /** The last requisite topology decides, and every one of them must name a region and a zone. */
  function PlaceOf(requisite: seq<map<string, string>>): Option<Place> {
    if exists t :: t in requisite && (REGION_KEY !in t || ZONE_KEY !in t) then None
    else if requisite == [] then Some(Place("", ""))
    else Some(Place(requisite[|requisite| - 1][REGION_KEY], requisite[|requisite| - 1][ZONE_KEY]))
  }

  datatype Plan = Plan(name: string, typeId: string, size: int, blockSize: int, place: Place)
  {
    function NewDisk(): Disk {
      Disk(name, typeId, place.zone, size, blockSize, map[])
    }
  }

  function BlockSizeFor(parameters: map<string, string>): Option<int> {
    if "blockSize" in parameters && TrimSpace(parameters["blockSize"]) != ""
    then BlockSize.BlockSizeOf(parameters["blockSize"])
    else Some(BlockSize.DEFAULT_BLOCK_SIZE)
  }

  function PlanOf(r: CreateRequest): Result<Plan, Code> {
    if r.name == "" || r.capabilities == [] || Violations(r.capabilities) != {} then Err(InvalidArgument)
    else if "typeID" !in r.parameters then Err(InvalidArgument)
    else match BlockSizeFor(r.parameters)
      case None => Err(InvalidArgument)
      case Some(blockSize) =>
        match ExtractStorage(r.range, MaximumVolumeSize(blockSize))
        case None => Err(OutOfRange)
        case Some(size) =>
          match (if r.requisite.None? then Some(Place("", "")) else PlaceOf(r.requisite.value))
          case None => Err(InvalidArgument)
          case Some(place) => Ok(Plan(r.name, r.parameters["typeID"], size, blockSize, place))
  }

  // ---------- the step machine ----------

  /** The driver's shared state: the cloud, and the volumes in `resizeLocks`. */
  datatype World = World(cloud: CloudState, locks: set<VolumeId>)

  /** What a handler does next. */
  datatype Pc =
    | ListByName(plan: Plan)
    | CallCreate(plan: Plan)
    | CallDelete
    | CheckLock
    | GetDiskToPublish
    | GetInstanceToPublish(vol: Disk)
    | CallAttach(vol: Disk)
    | GetDiskToUnpublish
    | GetInstanceToUnpublish
    | CallDetach
    | GetDiskToExpand
    | CallUpdate(bytes: int)
    | PutLock
    | RemoveLock(bytes: int)
    | Finished(reply: Reply)

  /** Request validation, before any step is taken. */
  function Entry(call: Call): Pc {
    match call
    case Create(request) =>
      (match PlanOf(request)
       case Err(code) => Finished(Failed(code))
       case Ok(plan) => ListByName(plan))
    case Delete(id) => if id == [] then Finished(Failed(InvalidArgument)) else CallDelete
    case Publish(id, node, hasCapability, readonly) =>
      if id == [] || node == "" || !hasCapability then Finished(Failed(InvalidArgument))
      else if readonly then Finished(Failed(AlreadyExists))
      else CheckLock
    case Unpublish(id, node) => if id == [] then Finished(Failed(InvalidArgument)) else GetDiskToUnpublish
    case Expand(id, range, block) => if id == [] then Finished(Failed(InvalidArgument)) else GetDiskToExpand
  }

  /** The one element of a singleton. */
  ghost function Only<T(!new)>(s: set<T>): (x: T)
    requires |s| == 1
    ensures s == {x}
  {
    var x :| x in s;
    assert s == {x} by {
      assert |s - {x}| == 0;
    }
    x
  }

  ghost function StepCreate(w: World, o: Oracle, pc: Pc): (World, Pc)
    requires pc.ListByName? || pc.CallCreate?
  {
    match pc
    case ListByName(plan) =>
      if !o.firstRead then (w, Finished(Failed(Internal)))
      else
        var found := ByName(w.cloud, plan.name);
        if found == {} then (w, CallCreate(plan))
        else if |found| > 1 then (w, Finished(Failed(Unknown)))
        else (w, Finished(ReuseReply(w.cloud.disks[Only(found)], Only(found), plan)))
    case CallCreate(plan) =>
      var (cloud, error) := Settle(w.cloud, CreateDisk(o.newId, plan.NewDisk()), o.fate);
      (w.(cloud := cloud),
       Finished(if error.Some? then Failed(Internal)
                else Created(o.newId, plan.size, plan.place.region, plan.place.zone)))
  }

  /** The answer for a name that already has a disk: only size and block size are compared. */
  function ReuseReply(vol: Disk, id: VolumeId, plan: Plan): Reply {
    if vol.size != plan.size || vol.EffectiveBlockSize() != plan.blockSize then Failed(AlreadyExists)
    else Created(id, vol.size, plan.place.region, vol.zone)
  }

  function StepDelete(w: World, id: VolumeId, o: Oracle): (World, Pc) {
    var (cloud, error) := Settle(w.cloud, DeleteDisk(id), o.fate);
    (w.(cloud := cloud),
     Finished(if error in {None, Some(NotFoundError)} then Deleted else Failed(Internal)))
  }

  function StepPublish(w: World, id: VolumeId, node: InstanceId, o: Oracle, pc: Pc): (World, Pc)
    requires pc.CheckLock? || pc.GetDiskToPublish? || pc.GetInstanceToPublish? || pc.CallAttach?
  {
    match pc
    case CheckLock =>
      if id in w.locks then (w, Finished(Failed(Internal))) else (w, GetDiskToPublish)
    case GetDiskToPublish =>
      if !o.firstRead then (w, Finished(Failed(Unavailable)))
      else if id !in w.cloud.disks then (w, Finished(Failed(NotFound)))
      else (w, GetInstanceToPublish(w.cloud.disks[id]))
    case GetInstanceToPublish(vol) =>
      if !o.secondRead then (w, Finished(Failed(Unavailable)))
      else if node !in w.cloud.instances then (w, Finished(Failed(NotFound)))
      else if node in vol.attachments then (w, Finished(Published(vol.name)))
      else if vol.attachments != map[] then (w, Finished(Failed(FailedPrecondition)))
      else (w, CallAttach(vol))
    case CallAttach(vol) =>
      var (cloud, error) := Settle(w.cloud, AttachDisk(id, node, GenDiskId(id)), o.fate);
      (w.(cloud := cloud), Finished(if error.Some? then Failed(Internal) else Published(vol.name)))
  }

  function StepUnpublish(w: World, id: VolumeId, node: InstanceId, o: Oracle, pc: Pc): (World, Pc)
    requires pc.GetDiskToUnpublish? || pc.GetInstanceToUnpublish? || pc.CallDetach?
  {
    match pc
    case GetDiskToUnpublish =>
      if !o.firstRead then (w, Finished(Failed(Unavailable)))
      else if id !in w.cloud.disks || w.cloud.disks[id].attachments == map[] then (w, Finished(Unpublished))
      else (w, GetInstanceToUnpublish)
    case GetInstanceToUnpublish =>
      if !o.secondRead then (w, Finished(Failed(Unavailable)))
      else if node !in w.cloud.instances then (w, Finished(Unpublished))
      else (w, CallDetach)
    case CallDetach =>
      var (cloud, error) := Settle(w.cloud, DetachDisk(id, node), o.fate);
      (w.(cloud := cloud), Finished(if error.Some? then Failed(Internal) else Unpublished))
  }

  function StepExpand(w: World, id: VolumeId, range: Option<CapacityRange>, block: bool, o: Oracle, pc: Pc): (World, Pc)
    requires pc.GetDiskToExpand? || pc.CallUpdate? || pc.PutLock? || pc.RemoveLock?
  {
    match pc
    case GetDiskToExpand =>
      if !o.firstRead || id !in w.cloud.disks then (w, Finished(Failed(Internal)))
      else
        var disk := w.cloud.disks[id];
        (match ExtractStorage(range, MaximumVolumeSize(disk.EffectiveBlockSize()))
         case None => (w, Finished(Failed(OutOfRange)))
         case Some(bytes) =>
           if bytes <= disk.size then (w, Finished(Expanded(disk.size, true)))
           else (w, CallUpdate(bytes)))
    case CallUpdate(bytes) =>
      var (cloud, error) := Settle(w.cloud, UpdateSize(id, bytes), o.fate);
      (w.(cloud := cloud),
       if error == None then RemoveLock(bytes)
       else if error == Some(AttachedError) then PutLock
       else Finished(Failed(Internal)))
    case PutLock => (w.(locks := w.locks + {id}), Finished(Failed(Internal)))
    case RemoveLock(bytes) => (w.(locks := w.locks - {id}), Finished(Expanded(bytes, !block)))
  }

  /** The step belongs to a handler of this call. */
  predicate Fits(call: Call, pc: Pc) {
    match call
    case Create(_) => pc.ListByName? || pc.CallCreate? || pc.Finished?
    case Delete(_) => pc.CallDelete? || pc.Finished?
    case Publish(_, _, _, _) =>
      pc.CheckLock? || pc.GetDiskToPublish? || pc.GetInstanceToPublish? || pc.CallAttach? || pc.Finished?
    case Unpublish(_, _) =>
      pc.GetDiskToUnpublish? || pc.GetInstanceToUnpublish? || pc.CallDetach? || pc.Finished?
    case Expand(_, _, _) =>
      pc.GetDiskToExpand? || pc.CallUpdate? || pc.PutLock? || pc.RemoveLock? || pc.Finished?
  }

  /** An upper bound on the steps still to come. */
  function Remaining(pc: Pc): nat {
    match pc
    case Finished(_) => 0
    case PutLock => 1
    case RemoveLock(_) => 1
    case CallCreate(_) => 1
    case CallDelete => 1
    case CallAttach(_) => 1
    case CallDetach => 1
    case CallUpdate(_) => 2
    case ListByName(_) => 2
    case GetInstanceToPublish(_) => 2
    case GetInstanceToUnpublish => 2
    case GetDiskToPublish => 3
    case GetDiskToUnpublish => 3
    case GetDiskToExpand => 3
    case CheckLock => 4
  }

  ghost function Step(w: World, call: Call, o: Oracle, pc: Pc): (r: (World, Pc))
    requires Fits(call, pc) && !pc.Finished?
    ensures Fits(call, r.1) && Remaining(r.1) < Remaining(pc)
  {
    match call
    case Create(_) => StepCreate(w, o, pc)
    case Delete(id) => StepDelete(w, id, o)
    case Publish(id, node, _, _) => StepPublish(w, id, node, o, pc)
    case Unpublish(id, node) => StepUnpublish(w, id, node, o, pc)
    case Expand(id, range, block) => StepExpand(w, id, range, block, o, pc)
  }

  /** Steps taken without interruption until the handler returns. */
  ghost function RunFrom(w: World, call: Call, o: Oracle, pc: Pc): (World, Reply)
    requires Fits(call, pc)
    decreases Remaining(pc)
  {
    if pc.Finished? then (w, pc.reply)
    else
      var (w', pc') := Step(w, call, o, pc);
      RunFrom(w', call, o, pc')
  }

  /** One call made while no other is in flight. */
  ghost function Solo(w: World, call: Call, o: Oracle): (World, Reply) {
    RunFrom(w, call, o, Entry(call))
  }

  /** One step of a run, or its end. */
  lemma Unfold(w: World, call: Call, o: Oracle, pc: Pc)
    requires Fits(call, pc)
    ensures pc.Finished? ==> RunFrom(w, call, o, pc) == (w, pc.reply)
    ensures !pc.Finished? ==>
              RunFrom(w, call, o, pc) == RunFrom(Step(w, call, o, pc).0, call, o, Step(w, call, o, pc).1)
  {
  }
}
