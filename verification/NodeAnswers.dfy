/**
 What each node call answers and leaves behind, for every outcome of its commands: one table a
 call, in terms of the request and the host, that mentions no step of a handler.
 */
module NodeAnswers {
  import opened Outcomes
  import opened GoStrings
  import opened DiskName
  import opened Mounter
  import opened Node
  import H = Handlers
  import NodeSafety

  // ---------- a findmnt, and a mount or umount after it ----------

  /** Some mount of the path is not propagated. */
  predicate Unshared(h: Host, target: Path) {
    exists i :: 0 <= i < |MountsAt(h, target)| && !MountsAt(h, target)[i].shared
  }

  /** findmnt cannot be trusted: it complains, or it shows a mount that is not propagated. */
  predicate Doubtful(h: Host, target: Path, c: Commands) {
    c.findmnt == Complains || (c.findmnt == Answers && Unshared(h, target))
  }

  predicate SeenMounted(h: Host, target: Path, c: Commands) {
    c.findmnt == Answers && MountsAt(h, target) != []
  }

  /** The host with one more mount on the path, of what the source shows. */
  function OneMore(h: Host, d: Devices, source: Path, target: Path, fsType: string, options: seq<string>, shared: bool)
    : Host
  {
    var backing := if DiskAt(d, source).Some? then OnDisk(DiskAt(d, source).value)
                   else if source in h.mounts && h.mounts[source] != []
                   then h.mounts[source][|h.mounts[source]| - 1].backing
                   else OnDirectory;
    var stack := if target in h.mounts then h.mounts[target] else [];
    h.(mounts := h.mounts[target := stack + [MountEntry(backing, fsType, options, shared)]])
  }

  /** A stage or publish, once it comes to its findmnt. */
  function MountOutcome(h: Host, d: Devices, source: Path, target: Path, fsType: string,
                        options: seq<string>, c: Commands)
    : (Host, NodeReply)
  {
    if Doubtful(h, target, c) then (h, Failed(H.Unknown))
    else if SeenMounted(h, target, c) then (h, Succeeded)
    else if source == "" || !Mountable(h, d, source, options) || c.mount == NotDone then (h, Failed(H.Internal))
    else
      (OneMore(h, d, source, target, fsType, options, c.shared),
       if c.mount == Done then Succeeded else Failed(H.Internal))
  }

  lemma CheckThenMountAnswers(h: Host, call: NodeCall, c: Commands, s: Sights, source: Path)
    requires Fits(call, Checking(source))
    ensures var (fsType, options) := MountSettings(call);
            RunFrom(h, call, c, s, Checking(source)) ==
            MountOutcome(h, s.mount, source, TargetOf(call), fsType, options, c)
  {
    NodeSafety.RunEnds(h, call, c, s, Checking(source));
    hide Mountable, MountSettings, Fits;
  }

  // ---------- stage ----------

  /** The file system type asked for, or ext4. */
  function TypeWanted(capability: VolumeCapability): string {
    if capability.fsType == "" then "ext4" else capability.fsType
  }

  /** A stage after its formatting: only fsck's status 4 keeps it from mounting. */
  function RepairOutcome(h: Host, d: Devices, id: VolumeId, staging: Path, capability: VolumeCapability, c: Commands)
    : (Host, NodeReply)
  {
    if c.fsck == Exited(4) then (h, Failed(H.Unknown))
    else MountOutcome(h, d, ByIdPath(id), staging, TypeWanted(capability), capability.mountFlags, c)
  }

  /** The host after a mkfs that has its effect. */
  function Made(h: Host, disk: VolumeId, fsType: string): Host {
    Host(h.mounts, h.contents[disk := FileSystem(fsType)], h.formatted + [disk])
  }

  /** A block volume needs no staging. Any other is formatted with the type asked for, if blkid ends with status 2
      and there is no annotation, repaired, and mounted with that type and the flags asked for. */
  lemma StageAnswers(h: Host, id: VolumeId, staging: Path, capability: Option<VolumeCapability>,
                     context: map<string, string>, c: Commands, s: Sights)
    requires capability.Some? ==> capability.value.access != H.NoAccessType
    ensures Perform(h, Stage(id, staging, capability, context), c, s) ==
            if id == [] || staging == "" || capability.None? then (h, Failed(H.InvalidArgument))
            else if capability.value.access == H.Block then (h, Succeeded)
            else
              var status := Blkid(h, s.probe, ByIdPath(id), c.blkid);
              var disk := DiskAt(s.format, ByIdPath(id));
              if "com.flant.csi.yandex/noformat" in context || status == Exited(0) then
                RepairOutcome(h, s.mount, id, staging, capability.value, c)
              else if status != Exited(2) then (h, Failed(H.Unknown))
              else if disk.None? || c.mkfs == NotDone then (h, Failed(H.Internal))
              else
                var made := Made(h, disk.value, TypeWanted(capability.value));
                if c.mkfs == DoneWithError then (made, Failed(H.Internal))
                else RepairOutcome(made, s.mount, id, staging, capability.value, c)
  {
    var call := Stage(id, staging, capability, context);
    if Entry(call) == Probing || Entry(call) == Repairing {
      NoFormatAnnotation(context);
      RepairAnswers(h, call, c, s);
      Unfold(h, call, c, s, Entry(call));
      var (h1, pc1) := Step(h, SightAt(s, Entry(call)), call, c, Entry(call));
      Unfold(h1, call, c, s, pc1);
      if pc1 == Formatting {
        var (h2, pc2) := Step(h1, s.format, call, c, Formatting);
        Unfold(h2, call, c, s, pc2);
        RepairAnswers(h2, call, c, s);
      }
    }
  }

  lemma NoFormatAnnotation(context: map<string, string>)
    ensures NoFormat(context) <==> "com.flant.csi.yandex/noformat" in context
  {
    assert NO_FORMAT_ANNOTATIONS[0] == "com.flant.csi.yandex/noformat";
  }

  lemma RepairAnswers(h: Host, call: NodeCall, c: Commands, s: Sights)
    requires call.Stage? && Fits(call, Repairing)
    ensures RunFrom(h, call, c, s, Repairing) ==
            RepairOutcome(h, s.mount, call.id, call.staging, call.capability.value, c)
  {
    Unfold(h, call, c, s, Repairing);
    var pc := Step(h, SightAt(s, Repairing), call, c, Repairing).1;
    Unfold(h, call, c, s, pc);
    if pc.Checking? {
      CheckThenMountAnswers(h, call, c, s, pc.source);
    }
  }

  /** Every command goes well, and the same devices are there for all of them. */
  predicate AllWell(c: Commands) {
    && c.blkid == None && c.mkfs == Done && c.fsck == Exited(0) && c.findmnt == Answers
    && c.mount == Done && c.umount == Done
  }

  function Steady(d: Devices): Sights {
    Sights(d, d, d, d)
  }

  /** A blank disk gets the file system asked for and is mounted as such with the flags asked for. */
  lemma StageOfBlankDisk(h: Host, id: VolumeId, staging: Path, capability: VolumeCapability,
                         context: map<string, string>, c: Commands, d: Devices, disk: VolumeId)
    requires id != [] && staging != "" && capability.access == H.Mount && "com.flant.csi.yandex/noformat" !in context
    requires AllWell(c) && DiskAt(d, ByIdPath(id)) == Some(disk) && !ContentOf(h, disk).FileSystem?
    requires staging !in h.mounts
    ensures var fsType := if capability.fsType == "" then "ext4" else capability.fsType;
            var entry := MountEntry(OnDisk(disk), fsType, capability.mountFlags, c.shared);
            Perform(h, Stage(id, staging, Some(capability), context), c, Steady(d)) ==
            (Host(h.mounts[staging := [entry]], h.contents[disk := FileSystem(fsType)], h.formatted + [disk]),
             Succeeded)
  {
    StageAnswers(h, id, staging, Some(capability), context, c, Steady(d));
    hide Perform;
    assert forall entry: MountEntry :: [] + [entry] == [entry];
  }

  // ---------- publish ----------

  /** A bind mount, read-only exactly when asked for: of the volume's device file for a block volume, and otherwise
      of the staging path, with the flags asked for. */
  lemma PublishAnswers(h: Host, id: VolumeId, staging: Path, target: Path, capability: Option<VolumeCapability>,
                       readonly: bool, c: Commands, s: Sights)
    ensures Perform(h, Publish(id, staging, target, capability, readonly), c, s) ==
            if id == [] || staging == "" || target == "" || capability.None? then (h, Failed(H.InvalidArgument))
            else
              var options := if readonly then ["bind", "ro"] else ["bind"];
              match capability.value.access
              case NoAccessType => (h, Failed(H.InvalidArgument))
              case Mount =>
                MountOutcome(h, s.mount, staging, target, TypeWanted(capability.value),
                             options + capability.value.mountFlags, c)
              case Block =>
                var link := ByIdPath(id);
                var file := if link in s.resolve.links then s.resolve.links[link] else link;
                if file !in s.resolve.files || !(|file| >= 4 && file[..4] == "/dev") then (h, Failed(H.Internal))
                else MountOutcome(h, s.mount, file, target, "", options, c)
  {
    var call := Publish(id, staging, target, capability, readonly);
    Unfold(h, call, c, s, Entry(call));
    if Entry(call).Checking? {
      CheckThenMountAnswers(h, call, c, s, staging);
    } else if Entry(call) == Resolving {
      var pc := Step(h, s.resolve, call, c, Resolving).1;
      Unfold(h, call, c, s, pc);
      if pc.Checking? {
        CheckThenMountAnswers(h, call, c, s, pc.source);
      }
    }
  }

  /** A file system published from its staging path: one mount, of what the staging path shows, with "ro" among its
      options exactly when the request is read-only or its own flags have it. */
  lemma PublishOfStagedVolume(h: Host, id: VolumeId, staging: Path, target: Path, capability: VolumeCapability,
                              readonly: bool, c: Commands, d: Devices)
    requires id != [] && staging != "" && target != "" && capability.access == H.Mount
    requires AllWell(c) && target !in h.mounts && DiskAt(d, staging) == None
    requires staging in h.mounts && h.mounts[staging] != []
    ensures var fsType := if capability.fsType == "" then "ext4" else capability.fsType;
            var options := ["bind"] + (if readonly then ["ro"] else []) + capability.mountFlags;
            var entry := MountEntry(h.mounts[staging][|h.mounts[staging]| - 1].backing, fsType, options, c.shared);
            && Perform(h, Publish(id, staging, target, Some(capability), readonly), c, Steady(d)) ==
               (h.(mounts := h.mounts[target := [entry]]), Succeeded)
            && ("ro" in options <==> readonly || "ro" in capability.mountFlags)
  {
    PublishAnswers(h, id, staging, target, Some(capability), readonly, c, Steady(d));
    var options := ["bind"] + (if readonly then ["ro"] else []) + capability.mountFlags;
    assert options == (if readonly then ["bind", "ro"] else ["bind"]) + capability.mountFlags;
    assert options[0] == "bind";
    hide Perform;
    assert forall entry: MountEntry :: [] + [entry] == [entry];
  }

  // ---------- unstage and unpublish ----------

  /** The newest mount of the path goes, if findmnt shows one; nothing to unmount is success. */
  function UnmountOutcome(h: Host, target: Path, c: Commands): (Host, NodeReply) {
    if Doubtful(h, target, c) then (h, Failed(H.Unknown))
    else if !SeenMounted(h, target, c) then (h, Succeeded)
    else if c.umount == NotDone then (h, Failed(H.Unknown))
    else
      var stack := h.mounts[target];
      (h.(mounts := if |stack| == 1 then h.mounts - {target} else h.mounts[target := stack[..|stack| - 1]]),
       if c.umount == Done then Succeeded else Failed(H.Unknown))
  }

  lemma UnmountAnswers(h: Host, id: VolumeId, target: Path, c: Commands, s: Sights)
    ensures var outcome := if id == [] || target == "" then (h, Failed(H.InvalidArgument))
                           else UnmountOutcome(h, target, c);
            && Perform(h, Unstage(id, target), c, s) == outcome
            && Perform(h, Unpublish(id, target), c, s) == outcome
  {
    UnmountCallAnswers(h, Unstage(id, target), c, s);
    UnmountCallAnswers(h, Unpublish(id, target), c, s);
  }

  lemma UnmountCallAnswers(h: Host, call: NodeCall, c: Commands, s: Sights)
    requires call.Unstage? || call.Unpublish?
    ensures Perform(h, call, c, s) ==
            if call.id == [] || TargetOf(call) == "" then (h, Failed(H.InvalidArgument))
            else UnmountOutcome(h, TargetOf(call), c)
  {
    NodeSafety.RunEnds(h, call, c, s, Entry(call));
  }
}
