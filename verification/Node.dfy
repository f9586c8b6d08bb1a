/**
 The node service: driver/node.go, stage, publish, unpublish and unstage, as a step machine
 cut at every command, and as the methods that run it. The devices may change between
 commands.
 */
module Node {
  import opened Outcomes
  import opened GoStrings
  import opened DiskName
  import opened Mounter
  import H = Handlers

  datatype VolumeCapability = VolumeCapability(access: H.AccessType, fsType: string, mountFlags: seq<string>)

  datatype NodeCall =
    | Stage(id: VolumeId, staging: Path, capability: Option<VolumeCapability>, context: map<string, string>)
    | Unstage(id: VolumeId, staging: Path)
    | Publish(id: VolumeId, staging: Path, target: Path, capability: Option<VolumeCapability>, readonly: bool)
    | Unpublish(id: VolumeId, target: Path)
  {
    /** Staging takes its file system settings from a mount capability. */
    predicate Admissible() {
      Stage? && capability.Some? ==> capability.value.access != H.NoAccessType
    }
  }

  datatype NodeReply = Succeeded | Failed(code: H.Code)

  /** How the commands of one call turn out. */
  datatype Commands = Commands(
    blkid: Option<Exit>, mkfs: Effect, fsck: Exit, findmnt: Findmnt, mount: Effect, umount: Effect, shared: bool)

  const NO_FORMAT_ANNOTATIONS := ["com.flant.csi.yandex/noformat"]
  const FSCK_ERRORS_UNCORRECTED := 4

  predicate NoFormat(context: map<string, string>) {
    exists i :: 0 <= i < |NO_FORMAT_ANNOTATIONS| && NO_FORMAT_ANNOTATIONS[i] in context
  }

  function FsTypeOf(capability: VolumeCapability): string {
    if capability.fsType != "" then capability.fsType else "ext4"
  }

  /** The path a call mounts or unmounts. */
  function TargetOf(call: NodeCall): Path {
    match call
    case Stage(_, staging, _, _) => staging
    case Unstage(_, staging) => staging
    case Publish(_, _, target, _, _) => target
    case Unpublish(_, target) => target
  }

  function BindOptions(readonly: bool): seq<string> {
    if readonly then ["bind", "ro"] else ["bind"]
  }

  /** The file system type and the options a stage or publish mounts with. */
  function MountSettings(call: NodeCall): (string, seq<string>)
    requires (call.Stage? || call.Publish?) && call.capability.Some?
  {
    var capability := call.capability.value;
    if call.Stage? then (FsTypeOf(capability), capability.mountFlags)
    else if capability.access == H.Block then ("", BindOptions(call.readonly))
    else (FsTypeOf(capability), BindOptions(call.readonly) + capability.mountFlags)
  }

  /** findAbsoluteDeviceByIDPath: the device file behind the link, which must lie under /dev. */
  function DeviceFile(d: Devices, id: VolumeId): Option<Path> {
    var path := ByIdPath(id);
    var file := if path in d.links then d.links[path] else path;
    if file in d.files && HasPrefix(file, "/dev") then Some(file) else None
  }

  // ---------- the step machine ----------

  /** The command a call runs next, before a mount or before an unmount; the source is what will be mounted. */
  datatype NodePc =
    | Probing
    | Formatting
    | Repairing
    | Resolving
    | Checking(source: Path)
    | Mounting(source: Path)
    | CheckingOff
    | Unmounting
    | Ended(reply: NodeReply)

  /** Request validation, before any command is run. */
  function Entry(call: NodeCall): NodePc
    requires call.Admissible()
  {
    match call
    case Stage(id, staging, capability, context) =>
      if id == [] || staging == "" || capability.None? then Ended(Failed(H.InvalidArgument))
      else if capability.value.access == H.Block then Ended(Succeeded)
      else if NoFormat(context) then Repairing
      else Probing
    case Unstage(id, staging) => if id == [] || staging == "" then Ended(Failed(H.InvalidArgument)) else CheckingOff
    case Publish(id, staging, target, capability, readonly) =>
      if id == [] || staging == "" || target == "" || capability.None? then Ended(Failed(H.InvalidArgument))
      else
        (match capability.value.access
         case Block => Resolving
         case Mount => Checking(staging)
         case NoAccessType => Ended(Failed(H.InvalidArgument)))
    case Unpublish(id, target) => if id == [] || target == "" then Ended(Failed(H.InvalidArgument)) else CheckingOff
  }

  /** The call runs this command. */
  predicate Fits(call: NodeCall, pc: NodePc) {
    pc.Ended? ||
    match call
    case Stage(id, staging, capability, context) =>
      && staging != "" && capability.Some? && capability.value.access == H.Mount
      && (|| pc.Repairing? || ((pc.Checking? || pc.Mounting?) && pc.source == ByIdPath(id))
          || ((pc.Probing? || pc.Formatting?) && !NoFormat(context)))
    case Publish(id, staging, target, capability, _) =>
      && target != "" && capability.Some?
      && (|| (capability.value.access == H.Mount && (pc.Checking? || pc.Mounting?) && pc.source == staging)
          || (capability.value.access == H.Block && (pc.Resolving? || pc.Checking? || pc.Mounting?)))
    case _ => TargetOf(call) != "" && (pc.CheckingOff? || pc.Unmounting?)
  }

  /** An upper bound on the commands still to come. */
  function Remaining(pc: NodePc): nat {
    match pc
    case Ended(_) => 0
    case Mounting(_) => 1
    case Unmounting => 1
    case Checking(_) => 2
    case CheckingOff => 2
    case Resolving => 3
    case Repairing => 3
    case Formatting => 4
    case Probing => 5
  }

  function Step(h: Host, d: Devices, call: NodeCall, c: Commands, pc: NodePc): (r: (Host, NodePc))
    requires Fits(call, pc) && !pc.Ended?
    ensures Fits(call, r.1) && Remaining(r.1) < Remaining(pc)
  {
    var target := TargetOf(call);
    match pc
    case Probing =>
      (h, match FormattedBy(Blkid(h, d, ByIdPath(call.id), c.blkid))
          case Err(_) => Ended(Failed(H.Unknown))
          case Ok(formatted) => if formatted then Repairing else Formatting)
    case Formatting =>
      var (h', ok) := FormatDisk(h, d, ByIdPath(call.id), FsTypeOf(call.capability.value), c.mkfs);
      (h', if ok then Repairing else Ended(Failed(H.Internal)))
    case Repairing =>
      (h, if c.fsck == Exited(FSCK_ERRORS_UNCORRECTED) then Ended(Failed(H.Unknown)) else Checking(ByIdPath(call.id)))
    case Resolving =>
      (h, match DeviceFile(d, call.id)
          case None => Ended(Failed(H.Internal))
          case Some(file) => Checking(file))
    case Checking(source) =>
      (h, match MountedAt(h, target, c.findmnt)
          case Err(_) => Ended(Failed(H.Unknown))
          case Ok(mounted) => if mounted then Ended(Succeeded) else Mounting(source))
    case Mounting(source) =>
      var (fsType, options) := MountSettings(call);
      var (h', ok) := MountAt(h, d, source, target, fsType, options, c.shared, c.mount);
      (h', Ended(if ok then Succeeded else Failed(H.Internal)))
    case CheckingOff =>
      (h, match MountedAt(h, target, c.findmnt)
          case Err(_) => Ended(Failed(H.Unknown))
          case Ok(mounted) => if mounted then Unmounting else Ended(Succeeded))
    case Unmounting =>
      var (h', ok) := UnmountAt(h, target, c.umount);
      (h', Ended(if ok then Succeeded else Failed(H.Unknown)))
  }

  /** The devices there are when blkid, mkfs, the resolution of the link, and mount are run. */
  datatype Sights = Sights(probe: Devices, format: Devices, resolve: Devices, mount: Devices)

  function SightAt(s: Sights, pc: NodePc): Devices {
    match pc
    case Probing => s.probe
    case Formatting => s.format
    case Resolving => s.resolve
    case _ => s.mount
  }

  /** Commands run without another call in between until the handler returns. */
  function RunFrom(h: Host, call: NodeCall, c: Commands, s: Sights, pc: NodePc): (Host, NodeReply)
    requires Fits(call, pc)
    decreases Remaining(pc)
  {
    if pc.Ended? then (h, pc.reply)
    else
      var (h', pc') := Step(h, SightAt(s, pc), call, c, pc);
      RunFrom(h', call, c, s, pc')
  }

  /** One call made while no other is in flight. */
  function Perform(h: Host, call: NodeCall, c: Commands, s: Sights): (Host, NodeReply)
    requires call.Admissible()
  {
    RunFrom(h, call, c, s, Entry(call))
  }

  /** One command of a run, or its end. */
  lemma Unfold(h: Host, call: NodeCall, c: Commands, s: Sights, pc: NodePc)
    requires Fits(call, pc)
    ensures pc.Ended? ==> RunFrom(h, call, c, s, pc) == (h, pc.reply)
    ensures !pc.Ended? ==>
              var (h', pc') := Step(h, SightAt(s, pc), call, c, pc);
              RunFrom(h, call, c, s, pc) == RunFrom(h', call, c, s, pc')
  {
  }

  // ---------- the handlers ----------

  /** driver/node.go, checkAndRepairFilesystem: only status 4 is an error. */
  method CheckAndRepairFilesystem(fsck: Exit) returns (ok: bool)
    ensures ok <==> fsck != Exited(FSCK_ERRORS_UNCORRECTED)
  {
    ok := true;
    if fsck != Exited(0) {
      if fsck == NotRun {
      } else if fsck.status == FSCK_ERRORS_UNCORRECTED {
        ok := false;
      }
    }
  }

  class NodeService {
    const mounter: SystemMounter

    constructor (mounter: SystemMounter)
      ensures this.mounter == mounter
    {
      this.mounter := mounter;
    }

    method NodeStageVolume(id: VolumeId, staging: Path, capability: Option<VolumeCapability>,
                           context: map<string, string>,
                           c: Commands, s: Sights)
      returns (reply: NodeReply)
      requires Stage(id, staging, capability, context).Admissible()
      modifies mounter
      ensures (mounter.View(), reply) == Perform(old(mounter.View()), Stage(id, staging, capability, context), c, s)
    {
      if id == [] {
        return Failed(H.InvalidArgument);
      }
      if staging == "" {
        return Failed(H.InvalidArgument);
      }
      if capability == None {
        return Failed(H.InvalidArgument);
      }
      if capability.value.access == H.Block {
        return Succeeded;
      }
      var source := ByIdPath(id);
      var target := staging;
      var options := capability.value.mountFlags;
      var fsType := "ext4";
      if capability.value.fsType != "" {
        fsType := capability.value.fsType;
      }
      var noFormat := false;
      for i := 0 to |NO_FORMAT_ANNOTATIONS|
        invariant noFormat <==> exists j :: 0 <= j < i && NO_FORMAT_ANNOTATIONS[j] in context
      {
        noFormat := NO_FORMAT_ANNOTATIONS[i] in context;
        if noFormat {
          break;
        }
      }
      assert noFormat == NoFormat(context);
      ghost var call := Stage(id, staging, capability, context);
      if !noFormat {
        Unfold(mounter.View(), call, c, s, Probing);
        var formatted := mounter.IsFormatted(s.probe, source, c.blkid);
        if formatted.Err? {
          return Failed(H.Unknown);
        }
        if !formatted.value {
          Unfold(mounter.View(), call, c, s, Formatting);
          var ok := mounter.Format(s.format, source, fsType, c.mkfs);
          if !ok {
            return Failed(H.Internal);
          }
        }
      }
      Unfold(mounter.View(), call, c, s, Repairing);
      var sane := CheckAndRepairFilesystem(c.fsck);
      if !sane {
        return Failed(H.Unknown);
      }
      reply := MountUnlessMounted(source, target, fsType, options, c, s, call);
    }

    method NodeUnstageVolume(id: VolumeId, staging: Path, c: Commands, s: Sights) returns (reply: NodeReply)
      modifies mounter
      ensures (mounter.View(), reply) == Perform(old(mounter.View()), Unstage(id, staging), c, s)
    {
      if id == [] {
        return Failed(H.InvalidArgument);
      }
      if staging == "" {
        return Failed(H.InvalidArgument);
      }
      reply := UnmountIfMounted(staging, c, s, Unstage(id, staging));
    }

    method NodePublishVolume(id: VolumeId, staging: Path, target: Path, capability: Option<VolumeCapability>,
                             readonly: bool,
                             c: Commands, s: Sights)
      returns (reply: NodeReply)
      modifies mounter
      ensures (mounter.View(), reply) ==
              Perform(old(mounter.View()), Publish(id, staging, target, capability, readonly), c, s)
    {
      if id == [] {
        return Failed(H.InvalidArgument);
      }
      if staging == "" {
        return Failed(H.InvalidArgument);
      }
      if target == "" {
        return Failed(H.InvalidArgument);
      }
      if capability == None {
        return Failed(H.InvalidArgument);
      }
      ghost var call := Publish(id, staging, target, capability, readonly);
      var options := ["bind"];
      if readonly {
        options := options + ["ro"];
      }
      assert options == BindOptions(readonly);
      match capability.value.access
      case Block =>
        Unfold(mounter.View(), call, c, s, Resolving);
        var source := DeviceFile(s.resolve, id);
        if source == None {
          return Failed(H.Internal);
        }
        reply := MountUnlessMounted(source.value, target, "", options, c, s, call);
      case Mount =>
        options := options + capability.value.mountFlags;
        var fsType := "ext4";
        if capability.value.fsType != "" {
          fsType := capability.value.fsType;
        }
        reply := MountUnlessMounted(staging, target, fsType, options, c, s, call);
      case NoAccessType =>
        return Failed(H.InvalidArgument);
    }

    method NodeUnpublishVolume(id: VolumeId, target: Path, c: Commands, s: Sights) returns (reply: NodeReply)
      modifies mounter
      ensures (mounter.View(), reply) == Perform(old(mounter.View()), Unpublish(id, target), c, s)
    {
      if id == [] {
        return Failed(H.InvalidArgument);
      }
      if target == "" {
        return Failed(H.InvalidArgument);
      }
      reply := UnmountIfMounted(target, c, s, Unpublish(id, target));
    }

    method MountUnlessMounted(source: Path, target: Path, fsType: string, options: seq<string>, c: Commands, s: Sights,
                              ghost call: NodeCall)
      returns (reply: NodeReply)
      requires Fits(call, Checking(source)) && target == TargetOf(call) && (fsType, options) == MountSettings(call)
      modifies mounter
      ensures (mounter.View(), reply) == RunFrom(old(mounter.View()), call, c, s, Checking(source))
    {
      Unfold(mounter.View(), call, c, s, Checking(source));
      Unfold(mounter.View(), call, c, s, Mounting(source));
      var mounted := mounter.IsMounted(target, c.findmnt);
      if mounted.Err? {
        return Failed(H.Unknown);
      }
      if !mounted.value {
        var ok := mounter.Mount(s.mount, source, target, fsType, options, c.shared, c.mount);
        if !ok {
          return Failed(H.Internal);
        }
      }
      return Succeeded;
    }

    method UnmountIfMounted(target: Path, c: Commands, s: Sights, ghost call: NodeCall) returns (reply: NodeReply)
      requires Fits(call, CheckingOff) && target == TargetOf(call)
      modifies mounter
      ensures (mounter.View(), reply) == RunFrom(old(mounter.View()), call, c, s, CheckingOff)
    {
      Unfold(mounter.View(), call, c, s, CheckingOff);
      Unfold(mounter.View(), call, c, s, Unmounting);
      var mounted := mounter.IsMounted(target, c.findmnt);
      if mounted.Err? {
        return Failed(H.Unknown);
      }
      if mounted.value {
        var ok := mounter.Unmount(target, c.umount);
        if !ok {
          return Failed(H.Unknown);
        }
      }
      return Succeeded;
    }
  }
}
