/**
 What each controller call answers and leaves behind when no other is in flight: one table a
 call, in terms of the request, the world and the faults, that mentions no step of a handler.
 */
module Answers {
  import opened Outcomes
  import opened GoStrings
  import opened DiskName
  import opened Capacity
  import opened Cloud
  import opened Handlers
  import BlockSize

  /** How a call ends when the cloud accepts its mutating call: it learns of the new cloud or it does not. */
  function ByFate(w: World, cloud: CloudState, fate: Fate, done: Reply): (World, Reply) {
    match fate
    case Acknowledged => (w.(cloud := cloud), done)
    case Unreadable => (w.(cloud := cloud), Failed(Internal))
    case ReplyLost => (w.(cloud := cloud), Failed(Internal))
    case NotDone => (w, Failed(Internal))
  }

  // ---------- publish ----------

  /** Refusals come in this order, a disk on another instance is never attached, and a detached one is
      attached to the node alone, under the name derived from its id. */
  lemma PublishAlone(w: World, id: VolumeId, node: InstanceId, hasCapability: bool, readonly: bool, o: Oracle)
    ensures Solo(w, Publish(id, node, hasCapability, readonly), o) ==
            if id == [] || node == "" || !hasCapability then (w, Failed(InvalidArgument))
            else if readonly then (w, Failed(AlreadyExists))
            else if id in w.locks then (w, Failed(Internal))
            else if !o.firstRead then (w, Failed(Unavailable))
            else if id !in w.cloud.disks then (w, Failed(NotFound))
            else
              var d := w.cloud.disks[id];
              if !o.secondRead then (w, Failed(Unavailable))
              else if node !in w.cloud.instances then (w, Failed(NotFound))
              else if node in d.attachments then (w, Published(d.name))
              else if d.attachments != map[] then (w, Failed(FailedPrecondition))
              else ByFate(w, SetDisk(w.cloud, id, d.(attachments := map[node := GenDiskId(id)])), o.fate,
                         Published(d.name))
  {
    var call := Publish(id, node, hasCapability, readonly);
    if Entry(call) == CheckLock {
      Unfold(w, call, o, CheckLock);
      Unfold(w, call, o, GetDiskToPublish);
      if id in w.cloud.disks {
        var d := w.cloud.disks[id];
        Unfold(w, call, o, GetInstanceToPublish(d));
        Unfold(w, call, o, CallAttach(d));
        if d.attachments == map[] {
          assert d.attachments[node := GenDiskId(id)] == map[node := GenDiskId(id)];
        }
      }
    }
  }

  // ---------- unpublish ----------

  /** A volume that is nowhere, or a node that is gone, needs nothing done; a live node that does not have the
      volume is an error when another one has it. */
  lemma UnpublishAlone(w: World, id: VolumeId, node: InstanceId, o: Oracle)
    ensures Solo(w, Unpublish(id, node), o) ==
            if id == [] then (w, Failed(InvalidArgument))
            else if !o.firstRead then (w, Failed(Unavailable))
            else if id !in w.cloud.disks || w.cloud.disks[id].attachments == map[] then (w, Unpublished)
            else
              var d := w.cloud.disks[id];
              if !o.secondRead then (w, Failed(Unavailable))
              else if node !in w.cloud.instances then (w, Unpublished)
              else if node !in d.attachments then (w, Failed(Internal))
              else ByFate(w, SetDisk(w.cloud, id, d.(attachments := d.attachments - {node})), o.fate, Unpublished)
  {
    var call := Unpublish(id, node);
    if id != [] {
      Unfold(w, call, o, GetDiskToUnpublish);
      Unfold(w, call, o, GetInstanceToUnpublish);
      Unfold(w, call, o, CallDetach);
    }
  }

  // ---------- delete ----------

  /** Exactly this disk goes, if it is there and detached; one that is not there counts as deleted. */
  lemma DeleteAlone(w: World, id: VolumeId, o: Oracle)
    ensures Solo(w, Delete(id), o) ==
            if id == [] then (w, Failed(InvalidArgument))
            else if id !in w.cloud.disks then
              (w, if o.fate.Acknowledged? || o.fate.Unreadable? then Deleted else Failed(Internal))
            else if w.cloud.disks[id].attachments != map[] then (w, Failed(Internal))
            else ByFate(w,
                        w.cloud.(disks := map x | x in w.cloud.disks && x != id :: w.cloud.disks[x]), o.fate, Deleted)
  {
    if id != [] {
      Unfold(w, Delete(id), o, CallDelete);
      assert w.cloud.disks - {id} == map x | x in w.cloud.disks && x != id :: w.cloud.disks[x];
    }
  }

  // ---------- expand ----------

  /** A disk that is large enough stays as it is; a larger one is asked for in the units of its own block size,
      and a refusal because the disk is attached is remembered in the lock map. */
  lemma ExpandAlone(w: World, id: VolumeId, range: Option<CapacityRange>, block: bool, o: Oracle)
    ensures Solo(w, Expand(id, range, block), o) ==
            if id == [] then (w, Failed(InvalidArgument))
            else if !o.firstRead || id !in w.cloud.disks then (w, Failed(Internal))
            else
              var d := w.cloud.disks[id];
              var bytes := ExtractStorage(range, MaximumVolumeSize(if d.blockSize == 0 then 4096 else d.blockSize));
              if bytes == None then (w, Failed(OutOfRange))
              else if bytes.value <= d.size then (w, Expanded(d.size, true))
              else if d.attachments != map[] then
                (if o.fate.Acknowledged? || o.fate.Unreadable? then w.(locks := w.locks + {id}) else w,
                 Failed(Internal))
              else
                var (w', reply) := ByFate(w, SetDisk(w.cloud, id, d.(size := bytes.value)), o.fate,
                                          Expanded(bytes.value, !block));
                (if o.fate.Acknowledged? then w'.(locks := w.locks - {id}) else w', reply)
  {
    var call := Expand(id, range, block);
    if id != [] {
      Unfold(w, call, o, GetDiskToExpand);
      var (w1, pc1) := Step(w, call, o, GetDiskToExpand);
      Unfold(w1, call, o, pc1);
      if !pc1.Finished? {
        var (w2, pc2) := Step(w1, call, o, pc1);
        Unfold(w2, call, o, pc2);
        if !pc2.Finished? {
          var (w3, pc3) := Step(w2, call, o, pc2);
          Unfold(w3, call, o, pc3);
        }
      }
    }
  }

  // ---------- create ----------

  /** No capability but single-node writing, as block or mount. */
  predicate Supported(capabilities: seq<Capability>) {
    forall c :: c in capabilities ==> c.mode == SingleNodeWriter && (c.access == Block || c.access == Mount)
  }

  const REGION := "failure-domain.beta.kubernetes.io/region"
  const ZONE := "failure-domain.beta.kubernetes.io/zone"

  function BlockSizeWanted(parameters: map<string, string>): Option<int> {
    if "blockSize" in parameters && TrimSpace(parameters["blockSize"]) != ""
    then BlockSize.BlockSizeOf(parameters["blockSize"])
    else Some(4096)
  }

  predicate PlacesNamed(requisite: Option<seq<map<string, string>>>) {
    requisite.Some? ==> forall t :: t in requisite.value ==> REGION in t && ZONE in t
  }

  /** The value of the last requisite topology under the key; nothing without requirements. */
  function LastValue(requisite: Option<seq<map<string, string>>>, key: string): string {
    if requisite.None? || requisite.value == [] then ""
    else
      var last := requisite.value[|requisite.value| - 1];
      if key in last then last[key] else ""
  }

  /** What is refused before the cloud is asked anything. */
  function Refusal(r: CreateRequest): Option<Code> {
    var blockSize := BlockSizeWanted(r.parameters);
    if r.name == "" || r.capabilities == [] || !Supported(r.capabilities) || "typeID" !in r.parameters then
      Some(InvalidArgument)
    else if blockSize == None then Some(InvalidArgument)
    else if ExtractStorage(r.range, MaximumVolumeSize(blockSize.value)) == None then Some(OutOfRange)
    else if !PlacesNamed(r.requisite) then Some(InvalidArgument)
    else None
  }

  lemma RefusedOrPlanned(r: CreateRequest)
    ensures Refusal(r).Some? ==> Entry(Create(r)) == Finished(Failed(Refusal(r).value))
    ensures Refusal(r).None? ==>
              var blockSize := BlockSizeWanted(r.parameters).value;
              Entry(Create(r)) ==
              ListByName(Plan(r.name, r.parameters["typeID"],
                              ExtractStorage(r.range, MaximumVolumeSize(blockSize)).value, blockSize,
                              Place(LastValue(r.requisite, REGION), LastValue(r.requisite, ZONE))))
  {
    NoViolations(r.capabilities);
  }

  lemma NoViolations(capabilities: seq<Capability>)
    ensures Violations(capabilities) == {} <==> Supported(capabilities)
  {
    if !Supported(capabilities) {
      var c :| c in capabilities && !(c.mode == SingleNodeWriter && (c.access == Block || c.access == Mount));
      assert c.mode.OtherMode? ==> UnsupportedAccessMode(c.mode.name) in Violations(capabilities);
      assert c.access == NoAccessType ==> UnsupportedAccessType in Violations(capabilities);
    }
  }

  /** A name that one disk has is answered from that disk if size and block size match; a name that no disk
      has gets a disk exactly as requested, in the zone of the last requirement, with nothing attached. */
  lemma CreateAlone(w: World, r: CreateRequest, o: Oracle)
    ensures Refusal(r).Some? ==> Solo(w, Create(r), o) == (w, Failed(Refusal(r).value))
    ensures Refusal(r).None? ==>
              var blockSize := BlockSizeWanted(r.parameters).value;
              var size := ExtractStorage(r.range, MaximumVolumeSize(blockSize)).value;
              var (region, zone) := (LastValue(r.requisite, REGION), LastValue(r.requisite, ZONE));
              var found := set id | id in w.cloud.disks && w.cloud.disks[id].name == r.name;
              && (!o.firstRead ==> Solo(w, Create(r), o) == (w, Failed(Internal)))
              && (o.firstRead && |found| > 1 ==> Solo(w, Create(r), o) == (w, Failed(Unknown)))
              && (forall id :: o.firstRead && found == {id} ==>
                    var d := w.cloud.disks[id];
                    Solo(w, Create(r), o) ==
                    if d.size == size && (if d.blockSize == 0 then 4096 else d.blockSize) == blockSize
                    then (w, Created(id, size, region, d.zone))
                    else (w, Failed(AlreadyExists)))
              && (o.firstRead && found == {} ==>
                    Solo(w, Create(r), o) ==
                    if o.newId in w.cloud.usedIds then (w, Failed(Internal))
                    else
                      var disk := Disk(r.name, r.parameters["typeID"], zone, size, blockSize, map[]);
                      ByFate(w, SetDisk(w.cloud, o.newId, disk).(usedIds := w.cloud.usedIds + {o.newId}), o.fate,
                             Created(o.newId, size, region, zone)))
  {
    RefusedOrPlanned(r);
    var call := Create(r);
    Unfold(w, call, o, Entry(call));
    if Refusal(r).None? {
      var plan := Entry(call).plan;
      assert ByName(w.cloud, r.name) == set id | id in w.cloud.disks && w.cloud.disks[id].name == r.name;
      hide PlanOf, BlockSizeWanted, ExtractStorage, MaximumVolumeSize, LastValue, Refusal;
      Unfold(w, call, o, CallCreate(plan));
    }
  }
}
