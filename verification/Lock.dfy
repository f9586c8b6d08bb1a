/** driver/lock.go: the in-memory set of volumes that wait for a resize. */
module Lock {
  import opened DiskName

  /** Every method holds the mutex from start to end, so each is one atomic access. */
  class RwMap {
    var volumes: map<VolumeId, ()>

    ghost function Ids(): (ids: set<VolumeId>)
      reads this
    {
      volumes.Keys
    }

    constructor ()
      ensures Ids() == {}
    {
      volumes := map[];
    }

    method PutVolId(volId: VolumeId)
      modifies this
      ensures Ids() == old(Ids()) + {volId}
    {
      volumes := volumes[volId := ()];
    }

    method RemoveVolId(volId: VolumeId)
      modifies this
      ensures Ids() == old(Ids()) - {volId}
    {
      volumes := volumes - {volId};
    }

    method VolIdExists(volId: VolumeId) returns (ok: bool)
      ensures ok <==> volId in Ids()
    {
      ok := volId in volumes;
    }
  }
}
