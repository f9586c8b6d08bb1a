/** How many volumes a node offers to take: driver/node.go, NodeGetInfo. */
module VolumeLimit {
  import opened GoStrings
  import opened DiskName

  /** The instance the node runs on; `secondaryDisks` are the device names of its secondary disks. */
  datatype Instance = Instance(
    platform: string, cores: int, networkInterfaces: nat, secondaryDisks: seq<string>, localDisks: nat,
    filesystems: nat)

  const BOOT_DISKS := 1
  const BUSY := 14

  predicate OwnedByCsi(deviceName: string) {
    HasPrefix(deviceName, "csi-")
  }

  function CountCsi(names: seq<string>): nat {
    if names == [] then 0
    else CountCsi(names[..|names| - 1]) + if OwnedByCsi(names[|names| - 1]) then 1 else 0
  }

  function DisksLimit(platform: string, cores: int): int {
    if platform in {"standard-v1", "gpu-standard-v1"} then (if cores > 18 then 14 else 8)
    else if platform in {"standard-v2", "gpu-standard-v2"} then (if cores > 20 then 14 else 8)
    else if platform in {"standard-v3", "highfreq-v3"} then (if cores > 32 then 14 else 8)
    else 8
  }

  function Others(i: Instance): int {
    i.localDisks + i.filesystems + |i.secondaryDisks| - CountCsi(i.secondaryDisks)
  }

  /** So many devices that the network interfaces count against the limit. */
  predicate IsBusy(i: Instance) {
    BOOT_DISKS + |i.secondaryDisks| + i.networkInterfaces >= BUSY
  }

  function MaxVolumes(i: Instance): int {
    DisksLimit(i.platform, i.cores) - BOOT_DISKS - Others(i) - (if IsBusy(i) then i.networkInterfaces else 0)
  }

  /** driver/node.go, NodeGetInfo */
  method MaxVolumesPerNode(i: Instance) returns (limit: int)
    ensures limit == MaxVolumes(i)
  {
    var nonCsiSecondaryDisks: int := i.localDisks + i.filesystems;
    for j := 0 to |i.secondaryDisks|
      invariant nonCsiSecondaryDisks == i.localDisks + i.filesystems + j - CountCsi(i.secondaryDisks[..j])
    {
      assert i.secondaryDisks[..j + 1][..j] == i.secondaryDisks[..j];
      if !HasPrefix(i.secondaryDisks[j], "csi-") {
        nonCsiSecondaryDisks := nonCsiSecondaryDisks + 1;
      }
    }
    assert i.secondaryDisks[..|i.secondaryDisks|] == i.secondaryDisks;
    var disksLimit := 8;
    if i.platform == "standard-v1" || i.platform == "gpu-standard-v1" {
      if i.cores > 18 { disksLimit := 14; } else { disksLimit := 8; }
    } else if i.platform == "standard-v2" || i.platform == "gpu-standard-v2" {
      if i.cores > 20 { disksLimit := 14; } else { disksLimit := 8; }
    } else if i.platform == "standard-v3" || i.platform == "highfreq-v3" {
      if i.cores > 32 { disksLimit := 14; } else { disksLimit := 8; }
    }
    if BOOT_DISKS + |i.secondaryDisks| + i.networkInterfaces < 14 {
      limit := disksLimit - BOOT_DISKS - nonCsiSecondaryDisks;
    } else {
      limit := disksLimit - BOOT_DISKS - nonCsiSecondaryDisks - i.networkInterfaces;
    }
  }

  lemma {:induction false} CountCsiConcat(a: seq<string>, b: seq<string>)
    ensures CountCsi(a + b) == CountCsi(a) + CountCsi(b)
  {
    if b == [] {
      assert a + b == a;
    } else {
      assert (a + b)[..|a + b| - 1] == a + b[..|b| - 1];
      CountCsiConcat(a, b[..|b| - 1]);
    }
  }

  function Attach(i: Instance, at: nat, names: seq<string>): Instance
    requires at <= |i.secondaryDisks|
  {
    i.(secondaryDisks := i.secondaryDisks[..at] + names + i.secondaryDisks[at..])
  }

  /** The names of the disks the controller attaches for these volumes. */
  function DeviceNames(ids: seq<VolumeId>): (names: seq<string>)
    ensures |names| == |ids|
  {
    if ids == [] then [] else DeviceNames(ids[..|ids| - 1]) + [GenDiskId(ids[|ids| - 1])]
  }

  lemma {:induction false} DeviceNamesAreCsi(ids: seq<VolumeId>)
    ensures CountCsi(DeviceNames(ids)) == |ids|
  {
    if ids != [] {
      DeviceNamesAreCsi(ids[..|ids| - 1]);
      var names := DeviceNames(ids);
      assert names[..|names| - 1] == DeviceNames(ids[..|ids| - 1]);
      assert HasPrefix(GenDiskId(ids[|ids| - 1]), "csi-");
    }
  }

  /**
   Disks attached by publish calls are all counted as the driver's own: they leave the
   reported maximum alone until the instance becomes busy, and then lower it by exactly the
   number of network interfaces, once and for all.
   */
  lemma AttachingLowersAtMostOnce(i: Instance, at: nat, ids: seq<VolumeId>)
    requires at <= |i.secondaryDisks|
    ensures var j := Attach(i, at, DeviceNames(ids));
            && CountCsi(j.secondaryDisks) == CountCsi(i.secondaryDisks) + |ids|
            && Others(j) == Others(i)
            && MaxVolumes(j) == MaxVolumes(i) - (if IsBusy(j) && !IsBusy(i) then i.networkInterfaces else 0)
            && (IsBusy(i) ==> IsBusy(j))
  {
    hide CountCsi, DeviceNames, DisksLimit, MaxVolumes, Others;
    var before, names, after := i.secondaryDisks[..at], DeviceNames(ids), i.secondaryDisks[at..];
    DeviceNamesAreCsi(ids);
    CountCsiConcat(before + names, after);
    CountCsiConcat(before, names);
    CountCsiConcat(before, after);
    assert before + after == i.secondaryDisks;
    LimitMoves(i, Attach(i, at, names), |ids|);
  }

  lemma LimitMoves(i: Instance, j: Instance, added: nat)
    requires j == i.(secondaryDisks := j.secondaryDisks)
    requires |j.secondaryDisks| == |i.secondaryDisks| + added
    requires CountCsi(j.secondaryDisks) == CountCsi(i.secondaryDisks) + added
    ensures Others(j) == Others(i) && (IsBusy(i) ==> IsBusy(j))
    ensures MaxVolumes(j) == MaxVolumes(i) - (if IsBusy(j) && !IsBusy(i) then i.networkInterfaces else 0)
  {
    hide CountCsi, DisksLimit;
  }

  /**
   The driver's disks stay within the reported maximum exactly when all disks, with the boot
   disk and, on a busy instance, the network interfaces, stay within the platform's limit.
   */
  lemma MaximumKeepsPlatformLimit(i: Instance)
    ensures CountCsi(i.secondaryDisks) <= MaxVolumes(i) <==>
            BOOT_DISKS + |i.secondaryDisks| + i.localDisks + i.filesystems
            + (if IsBusy(i) then i.networkInterfaces else 0)
            <= DisksLimit(i.platform, i.cores)
  {
  }

  // ---------- the numbers ----------

  /** The limit is 14 on large machines of six platforms and 8 everywhere else. */
  lemma PlatformLimits(platform: string, cores: int)
    ensures DisksLimit(platform, cores) ==
            if || ((platform == "standard-v1" || platform == "gpu-standard-v1") && cores > 18)
               || ((platform == "standard-v2" || platform == "gpu-standard-v2") && cores > 20)
               || ((platform == "standard-v3" || platform == "highfreq-v3") && cores > 32)
            then 14 else 8
  {
  }

  /** The secondary disks whose device name starts with "csi-". */
  function CsiPlaces(names: seq<string>): set<int> {
    set j | 0 <= j < |names| && |names[j]| >= 4 && names[j][..4] == "csi-"
  }

  lemma {:induction false} CountedByName(names: seq<string>)
    ensures CountCsi(names) == |CsiPlaces(names)|
  {
    if names != [] {
      var before, n := names[..|names| - 1], |names| - 1;
      CountedByName(before);
      assert CsiPlaces(names) == CsiPlaces(before) + if OwnedByCsi(names[n]) then {n} else {} by {
        assert forall j :: 0 <= j < n ==> before[j] == names[j];
      }
      assert n !in CsiPlaces(before);
    }
  }

  /** The reported maximum: the limit without the boot disk, the devices that are not the driver's and, from 14
      devices on, the network interfaces. */
  lemma MaximumInNumbers(i: Instance)
    ensures MaxVolumes(i) ==
            DisksLimit(i.platform, i.cores) - 1
            - i.localDisks - i.filesystems - (|i.secondaryDisks| - |CsiPlaces(i.secondaryDisks)|)
            - (if 1 + |i.secondaryDisks| + i.networkInterfaces < 14 then 0 else i.networkInterfaces)
  {
    CountedByName(i.secondaryDisks);
  }
}
