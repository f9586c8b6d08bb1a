/**
 What one node call does to the mounts, and when it can be trusted: each of the promises
 fails exactly when findmnt, on a path that has a mount, ends without a word.
 */
module NodeSafety {
  import opened Outcomes
  import opened DiskName
  import opened Mounter
  import opened Node

  /** At most one mount on every path. */
  ghost predicate MountedOnce(h: Host) {
    forall target :: |MountsAt(h, target)| <= 1 && (target in h.mounts ==> h.mounts[target] != [])
  }

  /** findmnt ends without a word although the path has a mount. */
  predicate Blind(h: Host, target: Path, c: Commands) {
    c.findmnt == StaysSilent && MountsAt(h, target) != []
  }

  // ---------- what a call does, from the outcome of its commands ----------

  /** How far a call gets before its findmnt: there, or to its end. */
  function ToFindmnt(h: Host, call: NodeCall, c: Commands, s: Sights, pc: NodePc): (Host, NodePc)
    requires Fits(call, pc)
    decreases Remaining(pc)
  {
    if Remaining(pc) <= 2 then (h, pc)
    else
      var (h', pc') := Step(h, SightAt(s, pc), call, c, pc);
      ToFindmnt(h', call, c, s, pc')
  }

  /** The mount command has something to mount, and takes effect. */
  predicate MountTakes(h: Host, d: Devices, call: NodeCall, c: Commands, source: Path)
    requires Fits(call, Mounting(source))
  {
    source != "" && Mountable(h, d, source, MountSettings(call).1) && c.mount != NotDone
  }

  /** The call comes to its mount command, and that takes effect. */
  predicate Mounts(h: Host, call: NodeCall, c: Commands, s: Sights)
    requires call.Admissible()
  {
    var (h', pc) := ToFindmnt(h, call, c, s, Entry(call));
    pc.Checking? && MountedAt(h, TargetOf(call), c.findmnt) == Ok(false) && MountTakes(h', s.mount, call, c, pc.source)
  }

  /** A blind findmnt lets the call mount once more. */
  predicate Stacks(h: Host, call: NodeCall, c: Commands, s: Sights)
    requires call.Admissible()
  {
    Mounts(h, call, c, s) && Blind(h, TargetOf(call), c)
  }

  /** The call comes to its umount command, and that takes effect. */
  predicate Unmounts(h: Host, call: NodeCall, c: Commands)
    requires call.Admissible()
  {
    Entry(call) == CheckingOff && MountedAt(h, TargetOf(call), c.findmnt) == Ok(true) && c.umount != NotDone
  }

  /** blkid says 2, and mkfs then finds a device and takes effect. */
  predicate Formats(h: Host, call: NodeCall, c: Commands, s: Sights)
    requires call.Admissible()
  {
    && Entry(call) == Probing && Blkid(h, s.probe, ByIdPath(call.id), c.blkid) == Exited(BLKID_NO_IDENTIFIERS)
    && DiskAt(s.format, ByIdPath(call.id)).Some? && c.mkfs != NotDone
  }

  lemma {:induction false} RunSplitsAtFindmnt(h: Host, call: NodeCall, c: Commands, s: Sights, pc: NodePc)
    requires Fits(call, pc)
    ensures var (h', pc') := ToFindmnt(h, call, c, s, pc);
            && Fits(call, pc') && Remaining(pc') <= 2 && h'.mounts == h.mounts
            && RunFrom(h, call, c, s, pc) == RunFrom(h', call, c, s, pc')
            && (Remaining(pc) > 2 ==> pc'.Checking? || (pc'.Ended? && pc'.reply.Failed?))
    decreases Remaining(pc)
  {
    if Remaining(pc) > 2 {
      var (h', pc') := Step(h, SightAt(s, pc), call, c, pc);
      RunSplitsAtFindmnt(h', call, c, s, pc');
    }
  }

  /** Only mkfs changes what is on the disks. */
  lemma FormattingIsExact(h: Host, call: NodeCall, c: Commands, s: Sights)
    requires call.Admissible()
    ensures var h' := ToFindmnt(h, call, c, s, Entry(call)).0;
            h' == if Formats(h, call, c, s)
                  then FormatDisk(h, s.format, ByIdPath(call.id), FsTypeOf(call.capability.value), c.mkfs).0
                  else h
  {
    if Entry(call) == Probing {
      var pc := Step(h, s.probe, call, c, Probing).1;
      assert ToFindmnt(h, call, c, s, Probing) == ToFindmnt(h, call, c, s, pc);
      StopsAtRepair(h, call, c, s);
      if pc == Formatting {
        FormatsAndStops(h, call, c, s);
      }
    } else if Entry(call) == Repairing {
      StopsAtRepair(h, call, c, s);
    }
  }

  lemma FormatsAndStops(h: Host, call: NodeCall, c: Commands, s: Sights)
    requires Fits(call, Formatting)
    ensures ToFindmnt(h, call, c, s, Formatting).0 ==
            FormatDisk(h, s.format, ByIdPath(call.id), FsTypeOf(call.capability.value), c.mkfs).0
  {
    var (h', pc) := Step(h, s.format, call, c, Formatting);
    assert ToFindmnt(h, call, c, s, Formatting) == ToFindmnt(h', call, c, s, pc);
    StopsAtRepair(h', call, c, s);
  }

  lemma StopsAtRepair(h: Host, call: NodeCall, c: Commands, s: Sights)
    requires Fits(call, Repairing)
    ensures ToFindmnt(h, call, c, s, Repairing).0 == h
  {
  }

  /** The host after a call: what was there, one file system more, and one mount more or less on its path. */
  lemma CallIsExact(h: Host, call: NodeCall, c: Commands, s: Sights)
    requires call.Admissible()
    ensures var (h1, pc) := ToFindmnt(h, call, c, s, Entry(call));
            var target := TargetOf(call);
            Perform(h, call, c, s).0 ==
            if Mounts(h, call, c, s) then
              var (fsType, options) := MountSettings(call);
              MountAt(h1, s.mount, pc.source, target, fsType, options, c.shared, c.mount).0
            else if Unmounts(h, call, c) then UnmountAt(h, target, c.umount).0
            else h1
  {
    var (h1, pc) := ToFindmnt(h, call, c, s, Entry(call));
    RunSplitsAtFindmnt(h, call, c, s, Entry(call));
    assert MountedAt(h1, TargetOf(call), c.findmnt) == MountedAt(h, TargetOf(call), c.findmnt);
    hide ToFindmnt, MountedAt, UnmountAt;
    if pc.Checking? { CheckThenMount(h1, call, c, s, pc.source); }
    RunEnds(h1, call, c, s, pc);
  }

  lemma CheckThenMount(h: Host, call: NodeCall, c: Commands, s: Sights, source: Path)
    requires Fits(call, Checking(source))
    ensures RunFrom(h, call, c, s, Checking(source)).0 ==
            if MountedAt(h, TargetOf(call), c.findmnt) == Ok(false) && MountTakes(h, s.mount, call, c, source) then
              var (fsType, options) := MountSettings(call);
              MountAt(h, s.mount, source, TargetOf(call), fsType, options, c.shared, c.mount).0
            else h
  {
    hide MountedAt, Mountable;
    RunEnds(h, call, c, s, Checking(source));
  }

  /** The last two commands, unfolded. */
  lemma RunEnds(h: Host, call: NodeCall, c: Commands, s: Sights, pc: NodePc)
    requires Fits(call, pc) && Remaining(pc) <= 2
    ensures if pc.Ended? then RunFrom(h, call, c, s, pc) == (h, pc.reply)
            else
              var (h', pc') := Step(h, SightAt(s, pc), call, c, pc);
              if pc'.Ended? then RunFrom(h, call, c, s, pc) == (h', pc'.reply)
              else
                var (h'', pc'') := Step(h', SightAt(s, pc'), call, c, pc');
                pc''.Ended? && RunFrom(h, call, c, s, pc) == (h'', pc''.reply)
  {
    Unfold(h, call, c, s, pc);
    if !pc.Ended? {
      var (h', pc') := Step(h, SightAt(s, pc), call, c, pc);
      Unfold(h', call, c, s, pc');
      if !pc'.Ended? {
        var (h'', pc'') := Step(h', SightAt(s, pc'), call, c, pc');
        Unfold(h'', call, c, s, pc'');
      }
    }
  }

  /** A call touches the mounts of no path but its own. */
  lemma CallIsLocal(h: Host, call: NodeCall, c: Commands, s: Sights)
    requires call.Admissible()
    ensures var h' := Perform(h, call, c, s).0; h'.mounts - {TargetOf(call)} == h.mounts - {TargetOf(call)}
  {
    CallIsExact(h, call, c, s);
    RunSplitsAtFindmnt(h, call, c, s, Entry(call));
  }

  /** The mounts of its path: one more, one less, or as before. */
  lemma TargetAfter(h: Host, call: NodeCall, c: Commands, s: Sights)
    requires call.Admissible()
    ensures var before, after := MountsAt(h, TargetOf(call)), MountsAt(Perform(h, call, c, s).0, TargetOf(call));
            if Mounts(h, call, c, s) then |after| == |before| + 1
            else if Unmounts(h, call, c) then before != [] && after == before[..|before| - 1]
            else after == before
  {
    CallIsExact(h, call, c, s);
    RunSplitsAtFindmnt(h, call, c, s, Entry(call));
  }

  // ---------- depth ----------

  /** A call keeps every path at one mount unless a blind findmnt makes it mount once more, and only then. */
  lemma CallKeepsDepth(h: Host, call: NodeCall, c: Commands, s: Sights)
    requires MountedOnce(h) && call.Admissible()
    ensures MountedOnce(Perform(h, call, c, s).0) <==> !Stacks(h, call, c, s)
  {
    var h' := Perform(h, call, c, s).0;
    var target := TargetOf(call);
    TargetAfter(h, call, c, s);
    CallIsLocal(h, call, c, s);
    TidyAfter(h, call, c, s);
    assert |MountsAt(h, target)| <= 1;
    hide Perform, Mounts, Unmounts;
    forall path | path != target ensures MountsAt(h', path) == MountsAt(h, path) {
      assert path in h'.mounts <==> path in h'.mounts - {target};
      assert path in h.mounts <==> path in h.mounts - {target};
    }
    if Stacks(h, call, c, s) {
      assert |MountsAt(h', target)| == 2;
    }
  }

  /** No path is left with an empty stack. */
  lemma TidyAfter(h: Host, call: NodeCall, c: Commands, s: Sights)
    requires MountedOnce(h) && call.Admissible()
    ensures var h' := Perform(h, call, c, s).0; forall path :: path in h'.mounts ==> h'.mounts[path] != []
  {
    CallIsExact(h, call, c, s);
    RunSplitsAtFindmnt(h, call, c, s, Entry(call));
  }

  /** A successful unstage or unpublish empties its path, and does nothing else, unless its findmnt was
      blind: then it does nothing. */
  lemma UnmountEmpties(h: Host, call: NodeCall, c: Commands, s: Sights)
    requires MountedOnce(h) && (call.Unstage? || call.Unpublish?) && Perform(h, call, c, s).1 == Succeeded
    ensures Perform(h, call, c, s).0 == h.(mounts := h.mounts - {TargetOf(call)}) <==> !Blind(h, TargetOf(call), c)
    ensures Blind(h, TargetOf(call), c) ==> Perform(h, call, c, s).0 == h
  {
    RunEnds(h, call, c, s, Entry(call));
    assert TargetOf(call) !in h.mounts ==> h.mounts - {TargetOf(call)} == h.mounts;
  }

  /**
   From an unmounted target, a stage or publish, however it ends, followed by a successful
   unstage or unpublish of the same path restores the mount table, unless the second findmnt
   is blind.
   */
  lemma MountThenUnmountRestores(h: Host, call: NodeCall, c: Commands, s: Sights,
                                 undo: NodeCall, c': Commands, s': Sights)
    requires MountedOnce(h) && (call.Stage? || call.Publish?) && call.Admissible()
    requires MountsAt(h, TargetOf(call)) == []
    requires undo == (if call.Stage? then Unstage(call.id, call.staging) else Unpublish(call.id, call.target))
    requires Perform(Perform(h, call, c, s).0, undo, c', s').1 == Succeeded
    ensures var h' := Perform(h, call, c, s).0;
            Perform(h', undo, c', s').0.mounts == h.mounts <==> !Blind(h', TargetOf(call), c')
  {
    var h' := Perform(h, call, c, s).0;
    CallKeepsDepth(h, call, c, s);
    CallIsLocal(h, call, c, s);
    UnmountEmpties(h', undo, c', s');
    assert TargetOf(call) !in h.mounts;
    assert h.mounts - {TargetOf(call)} == h.mounts;
  }

  // ---------- repetition ----------

  /** A call changes something exactly when one of its commands takes effect. */
  lemma ChangesExactly(h: Host, call: NodeCall, c: Commands, s: Sights)
    requires call.Admissible()
    ensures Perform(h, call, c, s).0 == h <==>
            !Mounts(h, call, c, s) && !Unmounts(h, call, c) && !Formats(h, call, c, s)
  {
    CallIsExact(h, call, c, s);
    FormattingIsExact(h, call, c, s);
    RunSplitsAtFindmnt(h, call, c, s, Entry(call));
    TargetAfter(h, call, c, s);
    var (h', pc) := ToFindmnt(h, call, c, s, Entry(call));
    if Formats(h, call, c, s) {
      assert |h'.formatted| == |h.formatted| + 1;
    }
  }

  /** After a successful mounting call that has anything to mount its path is mounted. */
  lemma SuccessMounts(h: Host, call: NodeCall, c: Commands, s: Sights)
    requires call.Admissible() && Perform(h, call, c, s).1 == Succeeded
    requires !Entry(call).Ended? && Entry(call) != CheckingOff
    ensures MountsAt(Perform(h, call, c, s).0, TargetOf(call)) != []
  {
    var (h1, pc) := ToFindmnt(h, call, c, s, Entry(call));
    RunSplitsAtFindmnt(h, call, c, s, Entry(call));
    hide ToFindmnt;
    CheckedIsMounted(h1, call, c, s, pc.source);
  }

  lemma CheckedIsMounted(h: Host, call: NodeCall, c: Commands, s: Sights, source: Path)
    requires Fits(call, Checking(source)) && RunFrom(h, call, c, s, Checking(source)).1 == Succeeded
    ensures MountsAt(RunFrom(h, call, c, s, Checking(source)).0, TargetOf(call)) != []
  {
    hide MountSettings, BackingOf, Mountable, Fits;
    Unfold(h, call, c, s, Checking(source));
    if Step(h, s.mount, call, c, Checking(source)).1 == Mounting(source) {
      Unfold(h, call, c, s, Mounting(source));
      var (h', pc') := Step(h, s.mount, call, c, Mounting(source));
      Unfold(h', call, c, s, pc');
    }
  }

  /**
   Repeating a successful call changes nothing, whatever the outcome of its commands, with
   three exceptions and no other: a blind findmnt makes it mount again, blkid takes a disk
   for blank and mkfs writes to it, or the first findmnt was blind and only now is the path
   unmounted.
   */
  lemma RepeatedCallChangesNothing(h: Host, call: NodeCall, c: Commands, s: Sights, c': Commands, s': Sights)
    requires MountedOnce(h) && call.Admissible() && Perform(h, call, c, s).1 == Succeeded
    ensures var h' := Perform(h, call, c, s).0;
            Perform(h', call, c', s').0 == h' <==>
            && !Stacks(h', call, c', s') && !Formats(h', call, c', s')
            && !(Blind(h, TargetOf(call), c) && Unmounts(h', call, c'))
  {
    var h' := Perform(h, call, c, s).0;
    ChangesExactly(h', call, c', s');
    if Entry(call) == CheckingOff {
      UnmountEmpties(h, call, c, s);
    } else if !Entry(call).Ended? {
      SuccessMounts(h, call, c, s);
    }
  }

  /** With devices that stay, and a blkid that does not take a file system for none, the repetition formats nothing. */
  lemma RepeatedStageFormatsNothing(h: Host, call: NodeCall, c: Commands, s: Sights, c': Commands, s': Sights)
    requires call.Admissible() && Perform(h, call, c, s).1 == Succeeded
    requires c'.blkid != Some(Exited(BLKID_NO_IDENTIFIERS))
    requires Entry(call) == Probing ==>
               var source := ByIdPath(call.id);
               DiskAt(s.probe, source) == DiskAt(s.format, source) == DiskAt(s'.probe, source)
    ensures !Formats(Perform(h, call, c, s).0, call, c', s')
  {
    if Entry(call) == Probing {
      CallIsExact(h, call, c, s);
      FormattingIsExact(h, call, c, s);
      PastBlkid(h, call, c, s);
    }
  }

  /** A stage succeeds only past blkid's 0, or past a mkfs that reported success. */
  lemma PastBlkid(h: Host, call: NodeCall, c: Commands, s: Sights)
    requires call.Admissible() && Entry(call) == Probing && Perform(h, call, c, s).1 == Succeeded
    ensures || Blkid(h, s.probe, ByIdPath(call.id), c.blkid) == Exited(0)
            || (Formats(h, call, c, s) && c.mkfs == Done)
  {
    Unfold(h, call, c, s, Probing);
    var pc := Step(h, s.probe, call, c, Probing).1;
    Unfold(h, call, c, s, pc);
    if pc == Formatting {
      var (h', pc') := Step(h, s.format, call, c, Formatting);
      Unfold(h', call, c, s, pc');
    }
  }

  /**
   A findmnt that ends without a word undoes every promise: after a successful stage, the
   repeated stage stacks a second mount and succeeds, and the unstage succeeds and leaves
   the mount.
   */
  lemma SilentFindmntMisleads(h: Host, call: NodeCall, c: Commands, s: Sights, silent: Commands)
    requires call.Stage? && call.Admissible() && !Entry(call).Ended? && Perform(h, call, c, s).1 == Succeeded
    requires c.findmnt == Answers && c.mount == Done && MountsAt(h, call.staging) == []
    requires Entry(call) == Probing ==>
               c.blkid == None && DiskAt(s.probe, ByIdPath(call.id)) == DiskAt(s.format, ByIdPath(call.id))
    requires silent == c.(findmnt := StaysSilent)
    ensures var h' := Perform(h, call, c, s).0;
            var (h'', reply) := Perform(h', call, silent, s);
            && |MountsAt(h', call.staging)| == 1
            && |MountsAt(h'', call.staging)| == 2 && reply == Succeeded
            && Perform(h', Unstage(call.id, call.staging), silent, s) == (h', Succeeded)
  {
    var h' := Perform(h, call, c, s).0;
    var (h1, pc) := ToFindmnt(h, call, c, s, Entry(call));
    RunSplitsAtFindmnt(h, call, c, s, Entry(call));
    StageMountsOnce(h1, call, c, s, pc);
    if Entry(call) == Probing { FileSystemFound(h, h1, h', call, c, s); }
    ReachesFindmntAgain(h, h1, h', call, c, s, silent);
    BlindStageStacks(h', call, silent, s);
    RunEnds(h', Unstage(call.id, call.staging), silent, s, CheckingOff);
  }

  /** From its findmnt on, a stage of an unmounted path that succeeds has something to mount. */
  lemma StageMountsOnce(h: Host, call: NodeCall, c: Commands, s: Sights, pc: NodePc)
    requires call.Stage? && Fits(call, pc) && Remaining(pc) <= 2 && (pc.Ended? ==> pc.reply.Failed?) && !pc.Mounting?
    requires RunFrom(h, call, c, s, pc).1 == Succeeded
    requires c.findmnt == Answers && c.mount == Done && MountsAt(h, call.staging) == []
    ensures pc == Checking(ByIdPath(call.id))
    ensures var h' := RunFrom(h, call, c, s, pc).0;
            && |MountsAt(h', call.staging)| == 1 && h'.contents == h.contents
            && Mountable(h', s.mount, ByIdPath(call.id), MountSettings(call).1)
  {
    RunEnds(h, call, c, s, pc);
  }

  /** Past blkid and mkfs the disk holds a file system. */
  lemma FileSystemFound(h: Host, h1: Host, h': Host, call: NodeCall, c: Commands, s: Sights)
    requires call.Admissible() && Entry(call) == Probing && Perform(h, call, c, s).1 == Succeeded && c.blkid == None
    requires h1 == ToFindmnt(h, call, c, s, Probing).0 && h'.contents == h1.contents
    requires DiskAt(s.probe, ByIdPath(call.id)) == DiskAt(s.format, ByIdPath(call.id))
    ensures var disk := DiskAt(s.probe, ByIdPath(call.id)); disk.Some? && ContentOf(h', disk.value).FileSystem?
  {
    FormattingIsExact(h, call, c, s);
    PastBlkid(h, call, c, s);
  }

  /** The repeated stage gets to its findmnt, with nothing formatted. */
  lemma ReachesFindmntAgain(h: Host, h1: Host, h': Host, call: NodeCall, c: Commands, s: Sights, silent: Commands)
    requires call.Stage? && call.Admissible() && !Entry(call).Ended? && silent == c.(findmnt := StaysSilent)
    requires ToFindmnt(h, call, c, s, Entry(call)) == (h1, Checking(ByIdPath(call.id)))
    requires Entry(call) == Probing ==>
               && c.blkid == None && DiskAt(s.probe, ByIdPath(call.id)).Some?
               && ContentOf(h', DiskAt(s.probe, ByIdPath(call.id)).value).FileSystem?
    ensures RunFrom(h', call, silent, s, Entry(call)) == RunFrom(h', call, silent, s, Checking(ByIdPath(call.id)))
  {
    RepairSucceeds(h, h1, call, c, s);
    if Entry(call) == Probing {
      Unfold(h', call, silent, s, Probing);
    }
    Unfold(h', call, silent, s, Repairing);
  }

  lemma RepairSucceeds(h: Host, h1: Host, call: NodeCall, c: Commands, s: Sights)
    requires call.Stage? && call.Admissible() && !Entry(call).Ended?
    requires ToFindmnt(h, call, c, s, Entry(call)) == (h1, Checking(ByIdPath(call.id)))
    ensures c.fsck != Exited(FSCK_ERRORS_UNCORRECTED)
  {
    var (h', pc') := Step(h, SightAt(s, Entry(call)), call, c, Entry(call));
    if pc' == Formatting {
      var (h'', pc'') := Step(h', s.format, call, c, Formatting);
      if pc'' == Repairing {
        StopsAtRepair(h'', call, c, s);
      }
    }
  }

  lemma BlindStageStacks(h: Host, call: NodeCall, silent: Commands, s: Sights)
    requires call.Stage? && Fits(call, Checking(ByIdPath(call.id)))
    requires silent.findmnt == StaysSilent && silent.mount == Done
    requires Mountable(h, s.mount, ByIdPath(call.id), MountSettings(call).1)
    requires |MountsAt(h, call.staging)| == 1
    ensures var (h', reply) := RunFrom(h, call, silent, s, Checking(ByIdPath(call.id)));
            |MountsAt(h', call.staging)| == 2 && reply == Succeeded
  {
    RunEnds(h, call, silent, s, Checking(ByIdPath(call.id)));
  }
}
