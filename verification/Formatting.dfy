/** When mkfs overwrites a file system, over every run of the node services. */
module Formatting {
  import opened Outcomes
  import opened DiskName
  import opened Cloud
  import opened Mounter
  import opened Node
  import opened Fleet
  import H = Handlers

  predicate HoldsFs(f: Fleet, disk: VolumeId) {
    disk in f.contents && f.contents[disk].FileSystem?
  }

  /** The disk that the by-id path of the call's volume leads to on its node. */
  function DiskOf(f: Fleet, t: Task): Option<VolumeId> {
    DiskAt(DevicesOn(f, t.node), ByIdPath(t.call.id))
  }

  /** The next command of the call is mkfs, and it will write to the disk. */
  predicate AboutToWrite(f: Fleet, k: nat, disk: VolumeId) {
    && Running(f, k) && Fits(f.tasks[k].call, f.tasks[k].pc) && f.tasks[k].pc.Formatting?
    && f.tasks[k].commands.mkfs != Effect.NotDone && DiskOf(f, f.tasks[k]) == Some(disk)
  }

  /** Event n of the run is a mkfs of call k that writes to the disk. */
  predicate WritesAt(f: Fleet, run: seq<Event>, n: nat, k: nat, disk: VolumeId) {
    n < |run| && run[n] == Advance(k) && AboutToWrite(At(f, run, n), k, disk)
  }

  /** ... which holds a file system. */
  predicate OverwritesAt(f: Fleet, run: seq<Event>, n: nat, k: nat, disk: VolumeId) {
    WritesAt(f, run, n, k, disk) && HoldsFs(At(f, run, n), disk)
  }

  /** Event i of the run is the blkid of call k, which ends with status 2. */
  predicate SaysBlankAt(f: Fleet, run: seq<Event>, i: nat, k: nat) {
    && i < |run| && run[i] == Advance(k) && Running(At(f, run, i), k)
    && var t := At(f, run, i).tasks[k];
    && Fits(t.call, t.pc) && t.pc.Probing?
    && Blkid(HostOn(At(f, run, i), t.node), DevicesOn(At(f, run, i), t.node), ByIdPath(t.call.id), t.commands.blkid)
       == Exited(BLKID_NO_IDENTIFIERS)
  }

  /** The link does not lead to the disk, or blkid says 2 whatever is there. */
  predicate Unreliable(f: Fleet, k: nat, disk: VolumeId) {
    k in f.tasks &&
    (DiskOf(f, f.tasks[k]) != Some(disk) || f.tasks[k].commands.blkid == Some(Exited(BLKID_NO_IDENTIFIERS)))
  }

  /**
   The ways to be misled: blkid says 2 at event i about a disk with a file system, because
   the link did not lead there or the answer was wrong, or another mkfs wrote to the disk
   after event i; and the mkfs of the same call writes to it at event n.
   */
  ghost predicate Misled(f: Fleet, run: seq<Event>, i: nat, n: nat, k: nat, disk: VolumeId) {
    && i < n && SaysBlankAt(f, run, i, k) && WritesAt(f, run, n, k, disk)
    && (|| (HoldsFs(At(f, run, i), disk) && Unreliable(At(f, run, i), k, disk))
        || exists m, j :: i < m < n && WritesAt(f, run, m, j, disk))
  }

  // ---------- what one event does to the disks ----------

  /** Only a mkfs that takes effect changes what is on the disks, and only on the disk it writes to. */
  lemma EventOnDisks(f: Fleet, e: Event)
    ensures var f' := Next(f, e);
            || (f'.contents == f.contents && f'.formatted == f.formatted)
            || (&& e.Advance? && exists disk, fsType ::
                  && AboutToWrite(f, e.k, disk)
                  && f'.contents == f.contents[disk := FileSystem(fsType)] && f'.formatted == f.formatted + [disk])
    ensures forall disk :: e.Advance? && AboutToWrite(f, e.k, disk) ==>
              HoldsFs(Next(f, e), disk) && Next(f, e).formatted == f.formatted + [disk]
  {
    if e.Advance? && Running(f, e.k) && Fits(f.tasks[e.k].call, f.tasks[e.k].pc) {
      var t := f.tasks[e.k];
      StepOnDisks(HostOn(f, t.node), DevicesOn(f, t.node), t.call, t.commands, t.pc);
      hide Step, Fits;
    }
  }

  lemma StepOnDisks(h: Host, d: Devices, call: NodeCall, c: Commands, pc: NodePc)
    requires Fits(call, pc) && !pc.Ended?
    ensures var h' := Step(h, d, call, c, pc).0;
            if pc.Formatting? && c.mkfs != Effect.NotDone && DiskAt(d, ByIdPath(call.id)).Some? then
              var disk := DiskAt(d, ByIdPath(call.id)).value;
              && h'.contents == h.contents[disk := FileSystem(FsTypeOf(call.capability.value))]
              && h'.formatted == h.formatted + [disk]
            else h'.contents == h.contents && h'.formatted == h.formatted
  {
  }

  lemma {:induction false} FileSystemsStay(f: Fleet, run: seq<Event>, i: nat, n: nat, disk: VolumeId)
    requires i <= n <= |run| && HoldsFs(At(f, run, i), disk)
    ensures HoldsFs(At(f, run, n), disk)
    decreases n
  {
    hide *;
    if i < n {
      FileSystemsStay(f, run, i, n - 1, disk);
      AtNext(f, run, n - 1);
      EventKeepsFileSystem(At(f, run, n - 1), run[n - 1], disk);
    }
  }

  lemma EventKeepsFileSystem(f: Fleet, e: Event, disk: VolumeId)
    requires HoldsFs(f, disk)
    ensures HoldsFs(Next(f, e), disk)
  {
    EventOnDisks(f, e);
    hide Next, AboutToWrite;
  }

  /** A disk gets a file system only from a mkfs. */
  lemma {:induction false} FileSystemsAreMade(f: Fleet, run: seq<Event>, i: nat, n: nat, disk: VolumeId)
    returns (m: nat, j: nat)
    requires i <= n <= |run| && !HoldsFs(At(f, run, i), disk) && HoldsFs(At(f, run, n), disk)
    ensures i <= m < n && WritesAt(f, run, m, j, disk)
    decreases n
  {
    hide *;
    if HoldsFs(At(f, run, n - 1), disk) {
      m, j := FileSystemsAreMade(f, run, i, n - 1, disk);
    } else {
      m := n - 1;
      j := MadeNow(f, run, m, disk);
    }
  }

  lemma MadeNow(f: Fleet, run: seq<Event>, n: nat, disk: VolumeId) returns (k: nat)
    requires n < |run| && !HoldsFs(At(f, run, n), disk) && HoldsFs(At(f, run, n + 1), disk)
    ensures WritesAt(f, run, n, k, disk)
  {
    AtNext(f, run, n);
    EventOnDisks(At(f, run, n), run[n]);
    hide Exec, At, Next, AboutToWrite;
    k := run[n].k;
  }

  lemma WriteMakesFileSystem(f: Fleet, run: seq<Event>, n: nat, k: nat, disk: VolumeId)
    requires WritesAt(f, run, n, k, disk)
    ensures HoldsFs(At(f, run, n + 1), disk)
  {
    AtNext(f, run, n);
    EventOnDisks(At(f, run, n), run[n]);
  }

  // ---------- why a file system is overwritten ----------

  /** The blkid before a mkfs. */
  lemma ProbedBefore(f: Fleet, run: seq<Event>, n: nat, k: nat, disk: VolumeId) returns (i: nat)
    requires f.tasks == map[] && WritesAt(f, run, n, k, disk)
    ensures i < n && SaysBlankAt(f, run, i, k) && Stands(f, run, i + 1, n, k)
  {
    i := LookBack(f, run, k, n);
    AtNext(f, run, i);
    assert At(f, run, i + 1).tasks[k] == At(f, run, n).tasks[k];
    ProbeBeforeFormat(At(f, run, i), k);
  }

  lemma ProbeBeforeFormat(f: Fleet, k: nat)
    requires Running(f, k) && Fits(f.tasks[k].call, f.tasks[k].pc) && AdvanceTask(f, k).tasks[k].pc.Formatting?
    ensures var t := f.tasks[k];
            && t.pc.Probing?
            && Blkid(HostOn(f, t.node), DevicesOn(f, t.node), ByIdPath(t.call.id), t.commands.blkid)
               == Exited(BLKID_NO_IDENTIFIERS)
  {
  }

  /** blkid says 2 about a disk with a file system only if the link does not lead to it or the answer is wrong. */
  lemma BlankMeansUnreliable(f: Fleet, run: seq<Event>, i: nat, k: nat, disk: VolumeId)
    requires SaysBlankAt(f, run, i, k) && HoldsFs(At(f, run, i), disk)
    ensures Unreliable(At(f, run, i), k, disk)
  {
  }

  lemma OverwritingIsMisled(f: Fleet, run: seq<Event>, n: nat, k: nat, disk: VolumeId) returns (i: nat)
    requires f.tasks == map[] && OverwritesAt(f, run, n, k, disk)
    ensures Misled(f, run, i, n, k, disk)
  {
    i := ProbedBefore(f, run, n, k, disk);
    if HoldsFs(At(f, run, i), disk) {
      BlankMeansUnreliable(f, run, i, k, disk);
    } else {
      var m, j := FileSystemsAreMade(f, run, i, n, disk);
      assert m != i;
    }
  }

  lemma MisledOverwrites(f: Fleet, run: seq<Event>, i: nat, n: nat, k: nat, disk: VolumeId)
    requires Misled(f, run, i, n, k, disk)
    ensures OverwritesAt(f, run, n, k, disk)
  {
    if HoldsFs(At(f, run, i), disk) {
      FileSystemsStay(f, run, i, n, disk);
    } else {
      var m, j :| i < m < n && WritesAt(f, run, m, j, disk);
      WriteMakesFileSystem(f, run, m, j, disk);
      FileSystemsStay(f, run, m + 1, n, disk);
    }
  }

  /** A mkfs overwrites a file system exactly when its call was misled. */
  lemma OverwrittenExactly(f: Fleet, run: seq<Event>, n: nat, k: nat, disk: VolumeId)
    requires f.tasks == map[]
    ensures OverwritesAt(f, run, n, k, disk) <==> exists i :: Misled(f, run, i, n, k, disk)
  {
    if OverwritesAt(f, run, n, k, disk) {
      var i := OverwritingIsMisled(f, run, n, k, disk);
    }
    if i: nat :| Misled(f, run, i, n, k, disk) {
      MisledOverwrites(f, run, i, n, k, disk);
    }
  }

  // ---------- no reformatting ----------

  /** From f to g: file systems are kept, and what was formatted was blank and is recorded once. */
  ghost predicate Preserves(f: Fleet, g: Fleet) {
    && f.formatted <= g.formatted
    && (forall disk :: HoldsFs(f, disk) ==> HoldsFs(g, disk) && g.contents[disk] == f.contents[disk])
    && (forall i :: |f.formatted| <= i < |g.formatted| ==> !HoldsFs(f, g.formatted[i]) && HoldsFs(g, g.formatted[i]))
    && (forall i, j :: |f.formatted| <= i < j < |g.formatted| ==> g.formatted[i] != g.formatted[j])
  }

  ghost predicate OverwritesNothing(f: Fleet, e: Event) {
    forall disk :: HoldsFs(f, disk) ==> !(e.Advance? && AboutToWrite(f, e.k, disk))
  }

  lemma EventPreserves(f: Fleet, g: Fleet, e: Event)
    requires Preserves(f, g) && OverwritesNothing(g, e)
    ensures Preserves(f, Next(g, e))
  {
    var g' := Next(g, e);
    EventOnDisks(g, e);
    hide Next, AboutToWrite;
    if g'.formatted != g.formatted {
      var disk := g'.formatted[|g.formatted|];
      assert !HoldsFs(g, disk);
      assert forall i :: |f.formatted| <= i < |g.formatted| ==> g.formatted[i] != disk;
    }
  }

  ghost predicate NeverOverwrites(f: Fleet, run: seq<Event>) {
    forall n, k, disk :: !OverwritesAt(f, run, n, k, disk)
  }

  lemma {:induction false} PreservedWithoutOverwriting(f: Fleet, run: seq<Event>, n: nat)
    requires n <= |run| && NeverOverwrites(f, run)
    ensures Preserves(f, At(f, run, n))
  {
    hide *;
    if n == 0 {
      PreservedAtFirst(f, run);
    } else {
      PreservedWithoutOverwriting(f, run, n - 1);
      NoOverwriteNow(f, run, n - 1);
      AtNext(f, run, n - 1);
      EventPreserves(f, At(f, run, n - 1), run[n - 1]);
    }
  }

  lemma PreservedAtFirst(f: Fleet, run: seq<Event>)
    ensures Preserves(f, At(f, run, 0))
  {
    assert run[..0] == [];
  }

  lemma NoOverwriteNow(f: Fleet, run: seq<Event>, n: nat)
    requires n < |run| && NeverOverwrites(f, run)
    ensures OverwritesNothing(At(f, run, n), run[n])
  {
    hide At, HoldsFs, AboutToWrite;
    forall disk | HoldsFs(At(f, run, n), disk) && run[n].Advance? ensures !AboutToWrite(At(f, run, n), run[n].k, disk) {
      assert !OverwritesAt(f, run, n, run[n].k, disk);
    }
  }

  lemma {:induction false} FormattedGrows(f: Fleet, run: seq<Event>, i: nat, n: nat)
    requires i <= n <= |run|
    ensures At(f, run, i).formatted <= At(f, run, n).formatted
    decreases n
  {
    hide *;
    if i < n {
      FormattedGrows(f, run, i, n - 1);
      AtNext(f, run, n - 1);
      EventOnDisks(At(f, run, n - 1), run[n - 1]);
    }
  }

  /** Overwriting shows: the disk held a file system before the run, or is recorded twice. */
  lemma OverwritingShows(f: Fleet, run: seq<Event>, n: nat, k: nat, disk: VolumeId)
    requires OverwritesAt(f, run, n, k, disk)
    ensures !Preserves(f, Exec(f, run))
  {
    WriteIsRecorded(f, run, n, k, disk);
    if !HoldsFs(f, disk) {
      assert At(f, run, 0) == f by { assert run[..0] == []; }
      var m, j := FileSystemsAreMade(f, run, 0, n, disk);
      WriteIsRecorded(f, run, m, j, disk);
      RecordAdvances(f, run, m, j, n, disk);
    }
  }

  /** The record is as long as the writes before it, and each write makes it longer. */
  lemma RecordAdvances(f: Fleet, run: seq<Event>, m: nat, j: nat, n: nat, disk: VolumeId)
    requires m < n <= |run| && WritesAt(f, run, m, j, disk)
    ensures |f.formatted| <= |At(f, run, m).formatted| < |At(f, run, n).formatted|
  {
    assert At(f, run, 0) == f by { assert run[..0] == []; }
    FormattedGrows(f, run, 0, m);
    AtNext(f, run, m);
    EventOnDisks(At(f, run, m), run[m]);
    FormattedGrows(f, run, m + 1, n);
  }

  /**
   Over every run of node calls, interleaved in any way, with any failures and whatever
   devices come and go: file systems are kept, what was formatted was blank, and no disk is
   formatted twice, if and only if no call was misled between its blkid and its mkfs.
   */
  lemma NeverReformatted(f: Fleet, run: seq<Event>)
    requires f.tasks == map[]
    ensures Preserves(f, Exec(f, run)) <==> !exists i, n, k, disk :: Misled(f, run, i, n, k, disk)
  {
    if i: nat, n: nat, k: nat, disk: VolumeId :| Misled(f, run, i, n, k, disk) {
      MisledOverwrites(f, run, i, n, k, disk);
      OverwritingShows(f, run, n, k, disk);
    } else {
      forall n, k, disk ensures !OverwritesAt(f, run, n, k, disk) {
        OverwrittenExactly(f, run, n, k, disk);
      }
      assert run[..|run|] == run;
      PreservedWithoutOverwriting(f, run, |run|);
    }
  }

  /** The record shows a write to the disk between f and g. */
  predicate WrittenSince(f: Fleet, g: Fleet, disk: VolumeId) {
    exists i :: |f.formatted| <= i < |g.formatted| && g.formatted[i] == disk
  }

  /** A disk that holds a file system when the run begins is overwritten exactly when a blkid that gave 2
      looked elsewhere or was wrong and the mkfs of that call then wrote to the disk. */
  lemma FileSystemLostExactly(f: Fleet, run: seq<Event>, disk: VolumeId)
    requires f.tasks == map[] && HoldsFs(f, disk)
    ensures WrittenSince(f, Exec(f, run), disk) <==>
            exists i, n, k :: i < n && SaysBlankAt(f, run, i, k) && Unreliable(At(f, run, i), k, disk)
                              && WritesAt(f, run, n, k, disk)
  {
    assert run[..|run|] == run;
    if WrittenSince(f, Exec(f, run), disk) {
      var n, k := RecordedWrite(f, run, |run|, disk);
      FileSystemsStay(f, run, 0, n, disk);
      var i := ProbedBefore(f, run, n, k, disk);
      FileSystemsStay(f, run, 0, i, disk);
      BlankMeansUnreliable(f, run, i, k, disk);
    }
    if i: nat, n: nat, k: nat :| i < n && SaysBlankAt(f, run, i, k) && Unreliable(At(f, run, i), k, disk)
                                 && WritesAt(f, run, n, k, disk) {
      WriteIsRecorded(f, run, n, k, disk);
    }
  }

  /** What is in the record was written during the run. */
  lemma {:induction false} RecordedWrite(f: Fleet, run: seq<Event>, n: nat, disk: VolumeId) returns (m: nat, k: nat)
    requires n <= |run| && WrittenSince(f, At(f, run, n), disk)
    ensures WritesAt(f, run, m, k, disk)
  {
    hide *;
    NothingRecordedYet(f, run, disk);
    if WrittenSince(f, At(f, run, n - 1), disk) {
      m, k := RecordedWrite(f, run, n - 1, disk);
    } else {
      m := n - 1;
      k := RecordedNow(f, run, m, disk);
    }
  }

  lemma NothingRecordedYet(f: Fleet, run: seq<Event>, disk: VolumeId)
    ensures !WrittenSince(f, At(f, run, 0), disk)
  {
    assert run[..0] == [];
  }

  lemma RecordedNow(f: Fleet, run: seq<Event>, n: nat, disk: VolumeId) returns (k: nat)
    requires n < |run| && !WrittenSince(f, At(f, run, n), disk) && WrittenSince(f, At(f, run, n + 1), disk)
    ensures WritesAt(f, run, n, k, disk)
  {
    var g := At(f, run, n);
    AtNext(f, run, n);
    EventOnDisks(g, run[n]);
    hide Exec, At, Next, AboutToWrite;
    k := run[n].k;
  }

  /** Where the record shows a write. */
  lemma WriteIsRecorded(f: Fleet, run: seq<Event>, n: nat, k: nat, disk: VolumeId)
    requires WritesAt(f, run, n, k, disk)
    ensures var place := |At(f, run, n).formatted|;
            |f.formatted| <= place < |Exec(f, run).formatted| && Exec(f, run).formatted[place] == disk
  {
    assert run[..|run|] == run;
    assert At(f, run, 0) == f by { assert run[..0] == []; }
    FormattedGrows(f, run, 0, n);
    AtNext(f, run, n);
    EventOnDisks(At(f, run, n), run[n]);
    FormattedGrows(f, run, n + 1, |run|);
  }

  /** With a blkid that tells the truth and links that stay put from blkid to mkfs, and one mkfs per disk
      at a time, nobody is misled. */
  ghost predicate Careful(f: Fleet, run: seq<Event>) {
    forall i: nat, n: nat, k: nat, disk: VolumeId ::
      i < n && SaysBlankAt(f, run, i, k) && WritesAt(f, run, n, k, disk) ==>
      && At(f, run, i).tasks[k].commands.blkid != Some(Exited(BLKID_NO_IDENTIFIERS))
      && DiskOf(At(f, run, i), At(f, run, i).tasks[k]) == DiskOf(At(f, run, n), At(f, run, n).tasks[k])
      && forall m, j :: i < m < n ==> !WritesAt(f, run, m, j, disk)
  }

  lemma CarefulRunsPreserve(f: Fleet, run: seq<Event>)
    requires f.tasks == map[] && Careful(f, run)
    ensures Preserves(f, Exec(f, run))
  {
    NeverReformatted(f, run);
  }

  /** A stage in which the devices change between blkid and mkfs. */
  function LateLink(node: InstanceId, call: NodeCall, c: Commands, d: Devices): seq<Event> {
    [Begin(0, node, call, c), Advance(0), Udev(node, d), Advance(0)]
  }

  /**
   A stage right after an attach: blkid runs before udev has made the link and ends with
   status 2, the link appears, and mkfs overwrites whatever file system the disk holds.
   */
  lemma LateLinkOverwrites(f: Fleet, node: InstanceId, call: NodeCall, c: Commands, disk: VolumeId, d: Devices)
    requires f.tasks == map[] && HoldsFs(f, disk)
    requires call.Admissible() && Entry(call) == Probing && c.blkid == None && c.mkfs == Done
    requires DiskAt(DevicesOn(f, node), ByIdPath(call.id)) == None && DiskAt(d, ByIdPath(call.id)) == Some(disk)
    ensures var run := LateLink(node, call, c, d);
            && Misled(f, run, 1, 3, 0, disk)
            && Exec(f, run).contents[disk] == FileSystem(FsTypeOf(call.capability.value))
            && !Preserves(f, Exec(f, run))
  {
    var run := LateLink(node, call, c, d);
    var t := Task(node, call, c, Probing);
    var f1 := Next(f, run[0]);
    BeginsAlone(f, node, call, c);
    ProbesNothing(f1, t);
    var f2 := Next(f1, run[1]);
    var f3 := Next(f2, run[2]);
    assert AboutToWrite(f3, 0, disk) && HoldsFs(f3, disk);
    hide Next, AboutToWrite, HoldsFs;
    FourEvents(f, run);
    assert OverwritesAt(f, run, 3, 0, disk);
    assert SaysBlankAt(f, run, 1, 0) && Unreliable(f1, 0, disk);
    FormatsNow(f3, t.(pc := Formatting), disk);
    OverwritingShows(f, run, 3, 0, disk);
  }

  lemma FourEvents(f: Fleet, run: seq<Event>)
    requires |run| == 4
    ensures At(f, run, 0) == f && At(f, run, 1) == Next(f, run[0]) && At(f, run, 2) == Next(Next(f, run[0]), run[1])
    ensures At(f, run, 3) == Next(Next(Next(f, run[0]), run[1]), run[2])
    ensures Exec(f, run) == Next(At(f, run, 3), run[3])
  {
    assert run[..0] == [] && run[..4] == run;
    AtNext(f, run, 0);
    AtNext(f, run, 1);
    AtNext(f, run, 2);
    AtNext(f, run, 3);
  }

  lemma BeginsAlone(f: Fleet, node: InstanceId, call: NodeCall, c: Commands)
    requires f.tasks == map[] && call.Admissible() && Entry(call) == Probing
    ensures Next(f, Begin(0, node, call, c)) == f.(tasks := map[0 := Task(node, call, c, Probing)])
  {
  }

  lemma ProbesNothing(f: Fleet, t: Task)
    requires f.tasks == map[0 := t] && t.pc == Probing && Fits(t.call, Probing)
    requires t.commands.blkid == None && DiskOf(f, t) == None
    ensures var g := Next(f, Advance(0));
            && g.contents == f.contents && g.devices == f.devices && g.formatted == f.formatted
            && g.tasks == map[0 := t.(pc := Formatting)]
  {
  }

  lemma FormatsNow(f: Fleet, t: Task, disk: VolumeId)
    requires f.tasks == map[0 := t] && t.pc == Formatting && AboutToWrite(f, 0, disk)
    ensures Next(f, Advance(0)).contents == f.contents[disk := FileSystem(FsTypeOf(t.call.capability.value))]
  {
  }

  // ---------- the annotation ----------

  /** A stage as a file system, without the annotation. */
  predicate MayFormat(call: NodeCall) {
    call.Stage? && call.capability.Some? && call.capability.value.access == H.Mount && !NoFormat(call.context)
  }

  /** No stage of the run that may format has a link that leads to the disk. */
  predicate SparesDisk(f: Fleet, run: seq<Event>, disk: VolumeId) {
    forall n :: 0 <= n < |run| && run[n].Advance? && Running(At(f, run, n), run[n].k) ==>
      var t := At(f, run, n).tasks[run[n].k];
      MayFormat(t.call) ==> DiskOf(At(f, run, n), t) != Some(disk)
  }

  lemma OnlyStagesFormat(call: NodeCall)
    requires Fits(call, Formatting)
    ensures MayFormat(call)
  {
  }

  /** A disk staged only with the annotation, or as block, is never formatted. */
  lemma AnnotatedNeverFormatted(f: Fleet, run: seq<Event>, disk: VolumeId)
    requires SparesDisk(f, run, disk)
    ensures !WrittenSince(f, Exec(f, run), disk)
  {
    assert run[..|run|] == run;
    if WrittenSince(f, Exec(f, run), disk) {
      hide Exec, At, NoFormat, Fits;
      var n, k := RecordedWrite(f, run, |run|, disk);
      OnlyStagesFormat(At(f, run, n).tasks[k].call);
    }
  }
}
