/**
 What a node's mounts, devices and file systems look like, and what mkfs, mount, umount,
 blkid and findmnt do to them: driver/mounter.go with the commands replaced by their
 effects. Paths are taken to be canonical.
 */
module Mounter {
  import opened Outcomes
  import opened GoStrings
  import opened DiskName

  type Path = string

  datatype Content = Blank | FileSystem(fsType: string)

  datatype Backing = OnDisk(disk: VolumeId) | OnDirectory

  datatype MountEntry = MountEntry(backing: Backing, fsType: string, options: seq<string>, shared: bool)

  /** What udev shows of the node's disks at some moment: the by-id links and the device files. */
  datatype Devices = Devices(links: map<Path, Path>, files: map<Path, VolumeId>)

  /** `mounts` stacks the mounts of each mount point, newest last; `formatted` lists the disks
      mkfs wrote a file system to, in order, whether or not it then reported success. */
  datatype Host = Host(mounts: map<Path, seq<MountEntry>>, contents: map<VolumeId, Content>, formatted: seq<VolumeId>)

  function MountsAt(h: Host, target: Path): seq<MountEntry> {
    if target in h.mounts then h.mounts[target] else []
  }

  function WithMounts(h: Host, target: Path, entries: seq<MountEntry>): Host {
    h.(mounts := if entries == [] then h.mounts - {target} else h.mounts[target := entries])
  }

  function ContentOf(h: Host, disk: VolumeId): Content {
    if disk in h.contents then h.contents[disk] else Blank
  }

  /** The disk behind a device file, or behind a link to one. */
  function DiskAt(d: Devices, path: Path): Option<VolumeId> {
    var file := if path in d.links then d.links[path] else path;
    if file in d.files then Some(d.files[file]) else None
  }

  /** A command that could not be run, or its exit status. */
  datatype Exit = NotRun | Exited(status: int)

  /** A command with an effect: done, done although it reported an error, not done. */
  datatype Effect = Done | DoneWithError | NotDone

  // ---------- blkid ----------

  const BLKID_NO_IDENTIFIERS := 2

  /** blkid identifies a file system with status 0 and finds none with status 2, on a blank disk and
      where there is no device; `failure` makes it fail, or say 2 whatever is there. */
  function Blkid(h: Host, d: Devices, source: Path, failure: Option<Exit>): Exit {
    if failure.Some? && failure.value != Exited(0) then failure.value
    else if DiskAt(d, source).Some? && ContentOf(h, DiskAt(d, source).value).FileSystem? then Exited(0)
    else Exited(BLKID_NO_IDENTIFIERS)
  }

  /** The reading of blkid's exit status: Err stands for IsFormatted's error. */
  function FormattedBy(e: Exit): Result<bool, ()> {
    if e == Exited(0) then Ok(true)
    else if e == Exited(BLKID_NO_IDENTIFIERS) then Ok(false)
    else Err(())
  }

  // ---------- mkfs, mount, umount, findmnt: the host afterwards, and whether the command succeeded ----------

  function FormatDisk(h: Host, d: Devices, source: Path, fsType: string, effect: Effect): (Host, bool) {
    if DiskAt(d, source).None? || fsType == "" || effect == NotDone then (h, false)
    else
      var disk := DiskAt(d, source).value;
      (h.(contents := h.contents[disk := FileSystem(fsType)], formatted := h.formatted + [disk]), effect == Done)
  }

  /** What a bind mount of the source shows. */
  function BackingOf(h: Host, d: Devices, source: Path): Backing {
    if DiskAt(d, source).Some? then OnDisk(DiskAt(d, source).value)
    else if MountsAt(h, source) != [] then MountsAt(h, source)[|MountsAt(h, source)| - 1].backing
    else OnDirectory
  }

  /** A plain mount needs a file system on the device; a bind mount takes whatever the source shows. */
  predicate Mountable(h: Host, d: Devices, source: Path, options: seq<string>) {
    "bind" in options || (DiskAt(d, source).Some? && ContentOf(h, DiskAt(d, source).value).FileSystem?)
  }

  function MountAt(h: Host, d: Devices, source: Path, target: Path, fsType: string, options: seq<string>, shared: bool,
                   effect: Effect)
    : (Host, bool)
  {
    if source == "" || target == "" || !Mountable(h, d, source, options) || effect == NotDone then (h, false)
    else
      var entry := MountEntry(BackingOf(h, d, source), fsType, options, shared);
      (WithMounts(h, target, MountsAt(h, target) + [entry]), effect == Done)
  }

  function UnmountAt(h: Host, target: Path, effect: Effect): (Host, bool) {
    var entries := MountsAt(h, target);
    if target == "" || entries == [] || effect == NotDone then (h, false)
    else (WithMounts(h, target, entries[..|entries| - 1]), effect == Done)
  }

  /** findmnt answers, ends with a message instead, or ends without a word. */
  datatype Findmnt = Answers | Complains | StaysSilent

  /** IsMounted: no word means not mounted, whether findmnt found nothing or could not run. */
  function MountedAt(h: Host, target: Path, findmnt: Findmnt): Result<bool, ()> {
    if target == "" || findmnt == Complains then Err(())
    else if findmnt == StaysSilent then Ok(false)
    else if exists i :: 0 <= i < |MountsAt(h, target)| && !MountsAt(h, target)[i].shared then Err(())
    else Ok(MountsAt(h, target) != [])
  }

  /** A row of findmnt's answer. */
  datatype Row = Row(target: Path, propagation: string)

  function RowsOf(target: Path, entries: seq<MountEntry>): (rows: seq<Row>)
    ensures |rows| == |entries|
    ensures forall i :: 0 <= i < |rows| ==> rows[i] == Row(target, if entries[i].shared then "shared" else "private")
  {
    seq(|entries|, i requires 0 <= i < |entries| => Row(target, if entries[i].shared then "shared" else "private"))
  }

  /** What findmnt prints. */
  datatype Output = Silence | Message | Rows(rows: seq<Row>)

  /** Whether findmnt ends with an error, and its output: finding nothing is an error without output. */
  function FindmntOutput(h: Host, target: Path, findmnt: Findmnt): (bool, Output) {
    match findmnt
    case Answers =>
      if MountsAt(h, target) == [] then (true, Silence) else (false, Rows(RowsOf(target, MountsAt(h, target))))
    case Complains => (true, Message)
    case StaysSilent => (true, Silence)
  }

  /** driver/mounter.go, mounter; each command is handed the devices there are when it runs. */
  class SystemMounter {
    var mounts: map<Path, seq<MountEntry>>
    var contents: map<VolumeId, Content>
    var formatted: seq<VolumeId>

    constructor (h: Host)
      ensures View() == h
    {
      mounts, contents, formatted := h.mounts, h.contents, h.formatted;
    }

    function View(): Host
      reads this
    {
      Host(mounts, contents, formatted)
    }

    method Format(d: Devices, source: Path, fsType: string, effect: Effect) returns (ok: bool)
      modifies this`contents, this`formatted
      ensures (View(), ok) == FormatDisk(old(View()), d, source, fsType, effect)
    {
      if fsType == "" {
        return false;
      }
      var disk := DiskAt(d, source);
      if disk == None || effect == NotDone {
        return false;
      }
      contents := contents[disk.value := FileSystem(fsType)];
      formatted := formatted + [disk.value];
      return effect == Done;
    }

    method Mount(d: Devices, source: Path, target: Path, fsType: string, options: seq<string>, shared: bool,
                 effect: Effect)
      returns (ok: bool)
      modifies this`mounts
      ensures (View(), ok) == MountAt(old(View()), d, source, target, fsType, options, shared, effect)
    {
      if source == "" {
        return false;
      }
      if target == "" {
        return false;
      }
      if !Mountable(View(), d, source, options) || effect == NotDone {
        return false;
      }
      var entry := MountEntry(BackingOf(View(), d, source), fsType, options, shared);
      mounts := mounts[target := MountsAt(View(), target) + [entry]];
      return effect == Done;
    }

    method Unmount(target: Path, effect: Effect) returns (ok: bool)
      modifies this`mounts
      ensures (View(), ok) == UnmountAt(old(View()), target, effect)
    {
      if target == "" {
        return false;
      }
      var entries := MountsAt(View(), target);
      if entries == [] || effect == NotDone {
        return false;
      }
      if |entries| == 1 {
        mounts := mounts - {target};
      } else {
        mounts := mounts[target := entries[..|entries| - 1]];
      }
      return effect == Done;
    }

    method IsFormatted(d: Devices, source: Path, failure: Option<Exit>) returns (r: Result<bool, ()>)
      ensures r == if source == "" then Err(()) else FormattedBy(Blkid(View(), d, source, failure))
    {
      if source == "" {
        return Err(());
      }
      var exitCode := 0;
      var run := Blkid(View(), d, source, failure);
      if run != Exited(0) {
        if run == NotRun {
          return Err(());
        }
        exitCode := run.status;
        if exitCode == BLKID_NO_IDENTIFIERS {
          return Ok(false);
        } else {
          return Err(());
        }
      }
      return Ok(true);
    }

    method IsMounted(target: Path, findmnt: Findmnt) returns (r: Result<bool, ()>)
      ensures r == MountedAt(View(), target, findmnt)
    {
      if target == "" {
        return Err(());
      }
      var (failed, output) := FindmntOutput(View(), target, findmnt);
      if failed {
        if output == Silence {
          return Ok(false);
        }
        return Err(());
      }
      var targetFound := false;
      for i := 0 to |output.rows|
        invariant forall j :: 0 <= j < i ==> MountsAt(View(), target)[j].shared
        invariant targetFound <==> i > 0
      {
        if output.rows[i].propagation != "shared" {
          return Err(());
        }
        if output.rows[i].target == target {
          targetFound := true;
        }
      }
      return Ok(targetFound);
    }
  }
}
