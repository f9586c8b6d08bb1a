/**
 The cloud's side of the conversation: the disk table, the instances, and what each
 mutating call does to them. Nothing here limits a disk to one instance or a name to
 one disk; those are the driver's business.
 */
module Cloud {
  import opened Outcomes
  import opened DiskName
  import BlockSize

  type InstanceId = string

  /** `attachments` maps each instance the disk is attached to, to the device name used there. */
  datatype Disk = Disk(name: string, typeId: string, zone: string, size: int, blockSize: int,
                       attachments: map<InstanceId, string>)
  {
    /** A block size of zero reads as the default. */
    function EffectiveBlockSize(): int {
      if blockSize == 0 then BlockSize.DEFAULT_BLOCK_SIZE else blockSize
    }
  }

  /** `usedIds` holds every id ever given out, so that fresh ids stay fresh after a delete. */
  datatype CloudState = CloudState(disks: map<VolumeId, Disk>, usedIds: set<VolumeId>, instances: set<InstanceId>)

  /** The errors the driver can tell apart, and the transport failure. */
  datatype SdkError = NotFoundError | AttachedError | PreconditionError | TransportError

  predicate Sound(c: CloudState) {
    c.disks.Keys <= c.usedIds
  }

  /** Disk.List with an exact name filter */
  function ByName(c: CloudState, name: string): set<VolumeId> {
    set id | id in c.disks && c.disks[id].name == name
  }

  // ---------- mutating calls: the new state, or the reason for refusing ----------

  datatype Mutation =
    | CreateDisk(newId: VolumeId, disk: Disk)
    | DeleteDisk(id: VolumeId)
    | AttachDisk(id: VolumeId, instance: InstanceId, deviceName: string)
    | DetachDisk(id: VolumeId, instance: InstanceId)
    | UpdateSize(id: VolumeId, size: int)

  function Apply(c: CloudState, m: Mutation): Result<CloudState, SdkError> {
    match m
    case CreateDisk(newId, disk) =>
      if newId in c.usedIds then Err(TransportError)
      else Ok(c.(disks := c.disks[newId := disk], usedIds := c.usedIds + {newId}))
    case DeleteDisk(id) =>
      if id !in c.disks then Err(NotFoundError)
      else if c.disks[id].attachments != map[] then Err(PreconditionError)
      else Ok(c.(disks := c.disks - {id}))
    case AttachDisk(id, instance, deviceName) =>
      if id !in c.disks || instance !in c.instances then Err(NotFoundError)
      else Ok(SetDisk(c, id, c.disks[id].(attachments := c.disks[id].attachments[instance := deviceName])))
    case DetachDisk(id, instance) =>
      if id !in c.disks || instance !in c.instances then Err(NotFoundError)
      else if instance !in c.disks[id].attachments then Err(PreconditionError)
      else Ok(SetDisk(c, id, c.disks[id].(attachments := c.disks[id].attachments - {instance})))
    case UpdateSize(id, size) =>
      if id !in c.disks then Err(NotFoundError)
      else if c.disks[id].attachments != map[] then Err(AttachedError)
      else Ok(SetDisk(c, id, c.disks[id].(size := size)))
  }

  function SetDisk(c: CloudState, id: VolumeId, disk: Disk): CloudState {
    c.(disks := c.disks[id := disk])
  }

  // ---------- how a mutating call ends ----------

  /** Done and acknowledged; finished, but its response unreadable; done, but the reply lost; not done. */
  datatype Fate = Acknowledged | Unreadable | ReplyLost | NotDone
  {
    /** The call can have its effect without the caller learning of it. */
    predicate HidesEffect() { Unreadable? || ReplyLost? }
  }

  /** The state after the call, and the error the caller sees if it sees one. */
  function Settle(c: CloudState, m: Mutation, fate: Fate): (CloudState, Option<SdkError>) {
    match Apply(c, m)
    case Err(e) => (c, Some(if fate == Acknowledged || fate == Unreadable then e else TransportError))
    case Ok(after) =>
      match fate
      case Acknowledged => (after, None)
      case Unreadable => (after, Some(TransportError))
      case ReplyLost => (after, Some(TransportError))
      case NotDone => (c, Some(TransportError))
  }

  /** An instance that disappears takes its attachments with it; instance ids are never reused. */
  function WithoutInstance(c: CloudState, instance: InstanceId): CloudState {
    c.(instances := c.instances - {instance},
       disks := map id | id in c.disks ::
         c.disks[id].(attachments := c.disks[id].attachments - {instance}))
  }
}
