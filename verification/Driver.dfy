/**
 The controller service as it is written: driver/controller.go. Each method runs against
 the SDK and the lock map, and is proved to do what its call does in the step machine.
 */
module Driver {
  import opened Outcomes
  import opened GoStrings
  import opened DiskName
  import opened Capacity
  import opened Cloud
  import opened Handlers
  import opened Operation
  import opened Lock
  import Answers
  import BlockSize

  /** Everything the environment decides for one call. */
  datatype Environment = Environment(firstRead: bool, secondRead: bool, script: Script, newId: VolumeId)
  {
    function Decisions(): Oracle { Oracle(firstRead, secondRead, FateOf(script), newId) }
  }

  /** driver/controller.go, validateCapabilities: none are found exactly when all are supported. */
  method ValidateCapabilities(capabilities: seq<Capability>) returns (violations: set<Violation>)
    ensures violations == Violations(capabilities)
    ensures violations == {} <==>
            forall c :: c in capabilities ==> c.mode == SingleNodeWriter && (c.access == Block || c.access == Mount)
  {
    Answers.NoViolations(capabilities);
    violations := {};
    for i := 0 to |capabilities|
      invariant violations == Violations(capabilities[..i])
    {
      assert capabilities[..i + 1] == capabilities[..i] + [capabilities[i]];
      ViolationsGrow(capabilities[..i], capabilities[i]);
      if capabilities[i].mode != SingleNodeWriter {
        violations := violations + {UnsupportedAccessMode(capabilities[i].mode.name)};
      }
      match capabilities[i].access
      case Block =>
      case Mount =>
      case NoAccessType => violations := violations + {UnsupportedAccessType};
    }
    assert capabilities[..|capabilities|] == capabilities;
  }

  lemma ViolationsGrow(capabilities: seq<Capability>, c: Capability)
    ensures Violations(capabilities + [c]) ==
            Violations(capabilities)
            + (if c.mode.OtherMode? then {UnsupportedAccessMode(c.mode.name)} else {})
            + (if c.access == NoAccessType then {UnsupportedAccessType} else {})
  {
    assert forall x :: x in capabilities + [c] <==> x in capabilities || x == c;
  }

  /** The loop of CreateVolume over the requisite topologies. */
  method ReadTopology(requisite: seq<map<string, string>>) returns (place: Option<Place>)
    ensures place == PlaceOf(requisite)
    ensures place.None? <==>
            exists t :: t in requisite && ("failure-domain.beta.kubernetes.io/region" !in t
                                           || "failure-domain.beta.kubernetes.io/zone" !in t)
    ensures place.Some? && requisite == [] ==> place.value.region == "" && place.value.zone == ""
    ensures place.Some? && requisite != [] ==>
              var last := requisite[|requisite| - 1];
              && place.value.region == last["failure-domain.beta.kubernetes.io/region"]
              && place.value.zone == last["failure-domain.beta.kubernetes.io/zone"]
  {
    var zone, region := "", "";
    for i := 0 to |requisite|
      invariant forall j :: 0 <= j < i ==> REGION_KEY in requisite[j] && ZONE_KEY in requisite[j]
      invariant i == 0 ==> zone == "" && region == ""
      invariant i > 0 ==> region == requisite[i - 1][REGION_KEY] && zone == requisite[i - 1][ZONE_KEY]
    {
      var segments := requisite[i];
      assert segments in requisite;
      if REGION_KEY !in segments {
        return None;
      }
      region := segments[REGION_KEY];
      if ZONE_KEY !in segments {
        return None;
      }
      zone := segments[ZONE_KEY];
    }
    return Some(Place(region, zone));
  }

  class Controller {
    const sdk: Sdk
    const resizeLocks: RwMap

    constructor (sdk: Sdk)
      ensures this.sdk == sdk && fresh(resizeLocks) && State() == World(sdk.cloud, {})
    {
      this.sdk := sdk;
      this.resizeLocks := new RwMap();
    }

    ghost function State(): World
      reads sdk, resizeLocks
    {
      World(sdk.cloud, resizeLocks.Ids())
    }

    method CreateVolume(request: CreateRequest, env: Environment) returns (reply: Reply)
      modifies sdk, resizeLocks
      ensures (State(), reply) == Solo(old(State()), Create(request), env.Decisions())
    {
      ghost var before, call, o := State(), Create(request), env.Decisions();
      if request.name == "" {
        return Failed(InvalidArgument);
      }
      if |request.capabilities| == 0 {
        return Failed(InvalidArgument);
      }
      var violations := ValidateCapabilities(request.capabilities);
      if violations != {} {
        return Failed(InvalidArgument);
      }
      if "typeID" !in request.parameters {
        return Failed(InvalidArgument);
      }
      var typeId := request.parameters["typeID"];
      var blockSize := BlockSize.DEFAULT_BLOCK_SIZE;
      if "blockSize" in request.parameters && TrimSpace(request.parameters["blockSize"]) != "" {
        var parsed := BlockSize.ParseBlockSize(request.parameters["blockSize"]);
        if parsed == None {
          return Failed(InvalidArgument);
        }
        blockSize := parsed.value;
      }
      var size := ExtractStorage(request.range, MaximumVolumeSize(blockSize));
      if size == None {
        return Failed(OutOfRange);
      }
      var place := Some(Place("", ""));
      if request.requisite.Some? {
        place := ReadTopology(request.requisite.value);
        if place == None {
          return Failed(InvalidArgument);
        }
      }
      var plan := Plan(request.name, typeId, size.value, blockSize, place.value);
      assert Entry(call) == ListByName(plan);
      reply := CreatePlanned(plan, env, call);
    }

    /** CreateVolume from its first cloud call on. */
    method CreatePlanned(plan: Plan, env: Environment, ghost call: Call) returns (reply: Reply)
      requires call.Create?
      modifies sdk, resizeLocks
      ensures (State(), reply) == RunFrom(old(State()), call, env.Decisions(), ListByName(plan))
    {
      ghost var before, o := State(), env.Decisions();
      Unfold(before, call, o, ListByName(plan));
      var listed := sdk.ListDisks(plan.name, env.firstRead);
      if listed.Err? {
        return Failed(Internal);
      }
      var disks := listed.value;
      if disks != {} {
        if |disks| > 1 {
          return Failed(Unknown);
        }
        var id :| id in disks;
        assert |disks - {id}| == 0;
        assert Only(disks) == id;
        var vol := sdk.cloud.disks[id];
        if vol.size != plan.size {
          return Failed(AlreadyExists);
        }
        var existingBlockSize := vol.blockSize;
        if existingBlockSize == 0 {
          existingBlockSize := BlockSize.DEFAULT_BLOCK_SIZE;
        }
        if existingBlockSize != plan.blockSize {
          return Failed(AlreadyExists);
        }
        return Created(id, vol.size, plan.place.region, vol.zone);
      }
      Unfold(before, call, o, CallCreate(plan));
      var error := WaitForResult(sdk, CreateDisk(env.newId, plan.NewDisk()), env.script);
      if error.Some? {
        return Failed(Internal);
      }
      var newDisk := sdk.cloud.disks[env.newId];
      return Created(env.newId, newDisk.size, plan.place.region, plan.place.zone);
    }

    method DeleteVolume(id: VolumeId, env: Environment) returns (reply: Reply)
      modifies sdk, resizeLocks
      ensures (State(), reply) == Solo(old(State()), Delete(id), env.Decisions())
    {
      if id == [] {
        return Failed(InvalidArgument);
      }
      Unfold(State(), Delete(id), env.Decisions(), CallDelete);
      var error := WaitForResult(sdk, DeleteDisk(id), env.script);
      if error.Some? {
        if error.value == NotFoundError {
          return Deleted;
        }
        return Failed(Internal);
      }
      return Deleted;
    }

    method ControllerPublishVolume(id: VolumeId, node: InstanceId, hasCapability: bool, readonly: bool,
                                   env: Environment)
      returns (reply: Reply)
      modifies sdk, resizeLocks
      ensures (State(), reply) == Solo(old(State()), Publish(id, node, hasCapability, readonly), env.Decisions())
    {
      ghost var before, call, o := State(), Publish(id, node, hasCapability, readonly), env.Decisions();
      if id == [] {
        return Failed(InvalidArgument);
      }
      if node == "" {
        return Failed(InvalidArgument);
      }
      if !hasCapability {
        return Failed(InvalidArgument);
      }
      if readonly {
        return Failed(AlreadyExists);
      }
      Unfold(before, call, o, CheckLock);
      var locked := resizeLocks.VolIdExists(id);
      if locked {
        return Failed(Internal);
      }
      Unfold(before, call, o, GetDiskToPublish);
      var got := sdk.GetDisk(id, env.firstRead);
      if got.Err? {
        if got.error == NotFoundError {
          return Failed(NotFound);
        }
        return Failed(Unavailable);
      }
      var vol := got.value;
      Unfold(before, call, o, GetInstanceToPublish(vol));
      var instance := sdk.GetInstance(node, env.secondRead);
      if instance.Err? {
        if instance.error == NotFoundError {
          return Failed(NotFound);
        }
        return Failed(Unavailable);
      }
      var attached := IsAmong(node, vol.attachments.Keys);
      if attached {
        return Published(vol.name);
      }
      if |vol.attachments| != 0 {
        return Failed(FailedPrecondition);
      }
      assert vol.attachments == map[];
      Unfold(before, call, o, CallAttach(vol));
      var error := WaitForResult(sdk, AttachDisk(id, node, GenDiskId(id)), env.script);
      if error.Some? {
        return Failed(Internal);
      }
      return Published(vol.name);
    }

    method ControllerUnpublishVolume(id: VolumeId, node: InstanceId, env: Environment) returns (reply: Reply)
      modifies sdk, resizeLocks
      ensures (State(), reply) == Solo(old(State()), Unpublish(id, node), env.Decisions())
    {
      ghost var before, call, o := State(), Unpublish(id, node), env.Decisions();
      if id == [] {
        return Failed(InvalidArgument);
      }
      Unfold(before, call, o, GetDiskToUnpublish);
      var got := sdk.GetDisk(id, env.firstRead);
      if got.Err? {
        if got.error == NotFoundError {
          return Unpublished;
        }
        return Failed(Unavailable);
      }
      if |got.value.attachments| == 0 {
        assert got.value.attachments == map[];
        return Unpublished;
      }
      Unfold(before, call, o, GetInstanceToUnpublish);
      var instance := sdk.GetInstance(node, env.secondRead);
      if instance.Err? {
        if instance.error == NotFoundError {
          return Unpublished;
        }
        return Failed(Unavailable);
      }
      Unfold(before, call, o, CallDetach);
      var error := WaitForResult(sdk, DetachDisk(id, node), env.script);
      if error.Some? {
        return Failed(Internal);
      }
      return Unpublished;
    }

    method ControllerExpandVolume(id: VolumeId, range: Option<CapacityRange>, block: bool, env: Environment)
      returns (reply: Reply)
      modifies sdk, resizeLocks
      ensures (State(), reply) == Solo(old(State()), Expand(id, range, block), env.Decisions())
    {
      ghost var before, call, o := State(), Expand(id, range, block), env.Decisions();
      if |id| == 0 {
        return Failed(InvalidArgument);
      }
      Unfold(before, call, o, GetDiskToExpand);
      var got := sdk.GetDisk(id, env.firstRead);
      if got.Err? {
        return Failed(Internal);
      }
      var disk := got.value;
      var blockSize := disk.blockSize;
      if blockSize == 0 {
        blockSize := BlockSize.DEFAULT_BLOCK_SIZE;
      }
      var resize := ExtractStorage(range, MaximumVolumeSize(blockSize));
      if resize == None {
        return Failed(OutOfRange);
      }
      if resize.value <= disk.size {
        return Expanded(disk.size, true);
      }
      reply := ExpandTo(id, resize.value, block, env, call);
    }

    /** ControllerExpandVolume from its update call on. */
    method ExpandTo(id: VolumeId, bytes: int, block: bool, env: Environment, ghost call: Call) returns (reply: Reply)
      requires call.Expand? && call.id == id && call.block == block
      modifies sdk, resizeLocks
      ensures (State(), reply) == RunFrom(old(State()), call, env.Decisions(), CallUpdate(bytes))
    {
      ghost var o := env.Decisions();
      Unfold(State(), call, o, CallUpdate(bytes));
      var error := WaitForResult(sdk, UpdateSize(id, bytes), env.script);
      if error.Some? {
        if error.value == AttachedError {
          Unfold(State(), call, o, PutLock);
          resizeLocks.PutVolId(id);
          return Failed(Internal);
        }
        return Failed(Internal);
      }
      Unfold(State(), call, o, RemoveLock(bytes));
      resizeLocks.RemoveVolId(id);
      var nodeExpansionRequired := true;
      if block {
        nodeExpansionRequired := false;
      }
      return Expanded(bytes, nodeExpansionRequired);
    }
  }

  /** The loop of ControllerPublishVolume over the instances a disk is attached to, in any order. */
  method IsAmong(node: InstanceId, instances: set<InstanceId>) returns (found: bool)
    ensures found <==> node in instances
  {
    var rest := instances;
    while rest != {}
      invariant rest <= instances
      invariant node in instances ==> node in rest
    {
      var id :| id in rest;
      if id == node {
        return true;
      }
      rest := rest - {id};
    }
    return false;
  }
}
