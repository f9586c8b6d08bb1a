/** File systems across the cluster: the only way to lose one is a stage of its own volume whose blkid missed it. */
module ClusterDisks {
  import opened Outcomes
  import opened DiskName
  import opened Cloud
  import opened Attachment
  import opened Mounter
  import opened Cluster
  import H = Handlers
  import F = Fleet
  import Formatting

  /** The stage of the volume ran blkid at event i, when the link was not there yet or blkid gave a wrong 2,
      although the volume held a file system, and its mkfs wrote at event n. */
  predicate LinkMissed(f: F.Fleet, run: seq<F.Event>, i: nat, n: nat, k: nat) {
    && i < n && Formatting.SaysBlankAt(f, run, i, k)
    && var g := F.At(f, run, i);
    && var t := g.tasks[k];
    && Formatting.HoldsFs(g, t.call.id)
    && (Formatting.DiskOf(g, t) == None || t.commands.blkid == Some(Exited(BLKID_NO_IDENTIFIERS)))
    && Formatting.WritesAt(f, run, n, k, t.call.id)
  }

  /** Two different calls in flight are about different volumes, so one mkfs runs per volume at a time. */
  lemma NoOtherWriter(f: F.Fleet, run: seq<F.Event>, i: nat, m: nat, n: nat, k: nat, j: nat, disk: VolumeId)
    requires i < m < n && Formatting.SaysBlankAt(f, run, i, k) && Formatting.WritesAt(f, run, n, k, disk)
    requires F.Disciplined(F.At(f, run, m)) && Formatting.WritesAt(f, run, m, j, disk)
    ensures F.At(f, run, m).tasks[j].call.id != F.At(f, run, n).tasks[k].call.id
  {
    StillRunning(f, run, i, m, n, k);
    WritesOnce(f, run, m, n, j, disk);
    hide F.At, F.Exec, F.Disciplined;
    DifferentVolumes(F.At(f, run, m), j, k);
  }

  lemma StillRunning(f: F.Fleet, run: seq<F.Event>, i: nat, m: nat, n: nat, k: nat)
    requires i <= m <= n <= |run| && k in F.At(f, run, i).tasks && F.Running(F.At(f, run, n), k)
    ensures F.Running(F.At(f, run, m), k) && F.At(f, run, m).tasks[k].call == F.At(f, run, n).tasks[k].call
  {
    F.PcFalls(f, run, i, m, k);
    F.PcFalls(f, run, m, n, k);
  }

  /** After its mkfs a call is past it. */
  lemma WritesOnce(f: F.Fleet, run: seq<F.Event>, m: nat, n: nat, j: nat, disk: VolumeId)
    requires m < n <= |run| && Formatting.WritesAt(f, run, m, j, disk)
    ensures j in F.At(f, run, n).tasks && !F.At(f, run, n).tasks[j].pc.Formatting?
  {
    F.AtNext(f, run, m);
    F.MovesOn(F.At(f, run, m), run[m], j);
    F.PcFalls(f, run, m + 1, n, j);
  }

  lemma DifferentVolumes(f: F.Fleet, j: nat, k: nat)
    requires F.Disciplined(f) && F.Running(f, j) && F.Running(f, k) && j != k
    ensures f.tasks[j].call.id != f.tasks[k].call.id
  {
    assert !F.Clash(f.tasks[j].node, f.tasks[j].call, f.tasks[k].node, f.tasks[k].call);
  }

  /** In a cluster, being misled comes down to one cause. */
  lemma MisledMeansLinkMissed(w0: H.World, contents: map<VolumeId, Content>, run: seq<Event>,
                              i: nat, n: nat, k: nat, disk: VolumeId)
    requires Sound(w0.cloud) && Managed(w0.cloud, Published(run)) && AlwaysDistinct(Start(w0, contents), run)
    requires Formatting.Misled(Start(w0, contents).fleet, FleetRun(Start(w0, contents), run), i, n, k, disk)
    ensures LinkMissed(Start(w0, contents).fleet, FleetRun(Start(w0, contents), run), i, n, k)
  {
    var c0 := Start(w0, contents);
    var f, fleetRun := c0.fleet, FleetRun(c0, run);
    FleetFollows(c0, run, i);
    OwnDiskAt(w0, contents, run, i, k);
    WriterIsOfTheVolume(w0, contents, run, n, k, disk);
    hide AlwaysDistinct, Managed, FleetRun, F.At, Start, F.Disciplined;
    F.PcFalls(f, fleetRun, i, n, k);
    assert F.At(f, fleetRun, i).tasks[k].call == F.At(f, fleetRun, n).tasks[k].call;
    forall m: nat, j: nat | i < m < n ensures !Formatting.WritesAt(f, fleetRun, m, j, disk) {
      if Formatting.WritesAt(f, fleetRun, m, j, disk) {
        WriterIsOfTheVolume(w0, contents, run, m, j, disk);
        NoOtherWriter(f, fleetRun, i, m, n, k, j, disk);
      }
    }
  }

  /** A mkfs writes to the volume its stage is about. */
  lemma WriterIsOfTheVolume(w0: H.World, contents: map<VolumeId, Content>, run: seq<Event>, m: nat, j: nat,
                           disk: VolumeId)
    requires Sound(w0.cloud) && Managed(w0.cloud, Published(run)) && AlwaysDistinct(Start(w0, contents), run)
    requires Formatting.WritesAt(Start(w0, contents).fleet, FleetRun(Start(w0, contents), run), m, j, disk)
    ensures var f := F.At(Start(w0, contents).fleet, FleetRun(Start(w0, contents), run), m);
            F.Disciplined(f) && j in f.tasks && f.tasks[j].call.id == disk
  {
    FleetFollows(Start(w0, contents), run, m);
    OwnDiskAt(w0, contents, run, m, j);
  }

  /**
   With an orchestrator that follows the staged lifecycle: over every run of the whole
   cluster no file system is lost and no disk formatted twice, if and only if no stage ran
   blkid on its own volume before the link was there, or got a wrong 2, and then formatted it.
   */
  lemma NeverReformattedAnywhere(w0: H.World, contents: map<VolumeId, Content>, run: seq<Event>)
    requires Sound(w0.cloud) && Managed(w0.cloud, Published(run)) && AlwaysDistinct(Start(w0, contents), run)
    ensures var c0 := Start(w0, contents);
            Formatting.Preserves(c0.fleet, Exec(c0, run).fleet) <==>
            !exists i, n, k :: LinkMissed(c0.fleet, FleetRun(c0, run), i, n, k)
  {
    var c0 := Start(w0, contents);
    var f, fleetRun := c0.fleet, FleetRun(c0, run);
    FleetFollows(c0, run, |run|);
    assert run[..|run|] == run && fleetRun[..|run|] == fleetRun;
    Formatting.NeverReformatted(f, fleetRun);
    if i: nat, n: nat, k: nat, disk: VolumeId :| Formatting.Misled(f, fleetRun, i, n, k, disk) {
      MisledMeansLinkMissed(w0, contents, run, i, n, k, disk);
    }
    if i: nat, n: nat, k: nat :| LinkMissed(f, fleetRun, i, n, k) {
      assert Formatting.Misled(f, fleetRun, i, n, k, F.At(f, fleetRun, i).tasks[k].call.id);
    }
  }
}
