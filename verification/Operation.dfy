/**
 Mutating cloud calls: ychelpers/operation_wrapper.go, WaitForResult. The call returns an
 operation, which is then polled until it is done; the handler can lose track of it at any
 point, and an effect happens before the reply or never.
 */
module Operation {
  import opened Outcomes
  import opened DiskName
  import opened Cloud

  datatype Poll = Running | PollFailed | Finished

  /** What goes on between the driver and the cloud during one mutating call: whether the
      submission is answered, whether that answer already is the verdict, what the polls find,
      whether the call gets executed if the driver loses track of it, and whether the final
      response can be read. */
  datatype Script = Script(submitted: bool, immediate: bool, polls: seq<Poll>, executed: bool, readable: bool)

  /** The polls see the operation finished before one of them fails or the context ends. */
  predicate SeesEnd(polls: seq<Poll>) {
    polls != [] && (polls[0] == Finished || (polls[0] == Running && SeesEnd(polls[1..])))
  }

  function FateOf(script: Script): Fate {
    if script.submitted && (script.immediate || SeesEnd(script.polls)) then
      (if script.readable then Acknowledged else Unreadable)
    else if script.executed then ReplyLost
    else NotDone
  }

  lemma {:induction false} SeesEndExactly(polls: seq<Poll>)
    ensures SeesEnd(polls) <==>
            exists i :: 0 <= i < |polls| && polls[i] == Finished && forall j :: 0 <= j < i ==> polls[j] == Running
  {
    if polls != [] && polls[0] == Running {
      SeesEndExactly(polls[1..]);
      if i :| 0 <= i < |polls| && polls[i] == Finished && forall j :: 0 <= j < i ==> polls[j] == Running {
        assert polls[1..][i - 1] == Finished && forall j :: 0 <= j < i - 1 ==> polls[1..][j] == polls[j + 1];
      }
      if i :| 0 <= i < |polls| - 1 && polls[1..][i] == Finished && forall j :: 0 <= j < i ==> polls[1..][j] == Running {
        assert polls[i + 1] == Finished;
        forall j | 0 <= j < i + 1 ensures polls[j] == Running {
          assert j > 0 ==> polls[1..][j - 1] == polls[j];
        }
      }
    }
  }

  /** The driver has the verdict: at once, or when some poll finds the operation finished and all before it still
      found it running. */
  ghost predicate Followed(script: Script) {
    script.submitted &&
    (|| script.immediate
     || exists i :: 0 <= i < |script.polls| && script.polls[i] == Finished
                    && forall j :: 0 <= j < i ==> script.polls[j] == Running)
  }

  /** An accepted call is acknowledged exactly when it is followed to its end and its response can be read, and it
      has its effect exactly when it is followed to its end or gets executed all the same. */
  lemma FateExactly(script: Script)
    ensures FateOf(script) == Acknowledged <==> Followed(script) && script.readable
    ensures FateOf(script) == NotDone <==> !Followed(script) && !script.executed
    ensures FateOf(script) == Unreadable <==> Followed(script) && !script.readable
  {
    SeesEndExactly(script.polls);
  }

  /** The cloud as the driver's SDK sees it. */
  class Sdk {
    var cloud: CloudState

    constructor (cloud: CloudState)
      ensures this.cloud == cloud
    {
      this.cloud := cloud;
    }

    /** Disk.List with a name filter; `answered` is false when the request fails. */
    method ListDisks(name: string, answered: bool) returns (r: Result<set<VolumeId>, SdkError>)
      ensures r == if answered then Ok(ByName(cloud, name)) else Err(TransportError)
    {
      r := if answered then Ok(ByName(cloud, name)) else Err(TransportError);
    }

    method GetDisk(id: VolumeId, answered: bool) returns (r: Result<Disk, SdkError>)
      ensures r == if !answered then Err(TransportError)
                   else if id in cloud.disks then Ok(cloud.disks[id]) else Err(NotFoundError)
    {
      if !answered {
        return Err(TransportError);
      }
      r := if id in cloud.disks then Ok(cloud.disks[id]) else Err(NotFoundError);
    }

    method GetInstance(instance: InstanceId, answered: bool) returns (r: Result<(), SdkError>)
      ensures r == if !answered then Err(TransportError)
                   else if instance in cloud.instances then Ok(()) else Err(NotFoundError)
    {
      if !answered {
        return Err(TransportError);
      }
      r := if instance in cloud.instances then Ok(()) else Err(NotFoundError);
    }

    /** Hands the call to the cloud, which may refuse it at once; the operation carries its verdict. */
    method Submit(m: Mutation, script: Script) returns (op: Result<PendingOperation, SdkError>)
      modifies this
      ensures cloud == Settle(old(cloud), m, FateOf(script)).0
      ensures op.Ok? <==> script.submitted && !(script.immediate && Apply(old(cloud), m).Err?)
      ensures op.Ok? ==>
                && fresh(op.value) && op.value.script == script && op.value.next == 0
                && op.value.verdict == (match Apply(old(cloud), m) case Ok(_) => None case Err(e) => Some(e))
      ensures op.Err? ==> op.error == if script.submitted then Apply(old(cloud), m).error else TransportError
    {
      var outcome := Apply(cloud, m);
      if outcome.Ok? && FateOf(script) != NotDone {
        cloud := outcome.value;
      }
      if !script.submitted {
        return Err(TransportError);
      }
      if script.immediate && outcome.Err? {
        return Err(outcome.error);
      }
      var pending := new PendingOperation(script, if outcome.Err? then Some(outcome.error) else None);
      return Ok(pending);
    }
  }

  class PendingOperation {
    const script: Script
    const verdict: Option<SdkError>
    var next: nat

    constructor (script: Script, verdict: Option<SdkError>)
      ensures this.script == script && this.verdict == verdict && next == 0
    {
      this.script, this.verdict, this.next := script, verdict, 0;
    }

    /** Polls until the operation is done, and then reports its verdict. */
    method Wait() returns (error: Option<SdkError>)
      requires next == 0
      modifies this
      ensures error == if script.immediate || SeesEnd(script.polls) then verdict else Some(TransportError)
    {
      if script.immediate {
        return verdict;
      }
      while next < |script.polls|
        invariant next <= |script.polls|
        invariant SeesEnd(script.polls[next..]) == SeesEnd(script.polls)
      {
        if script.polls[next] == Finished {
          return verdict;
        }
        if script.polls[next] == PollFailed {
          return Some(TransportError);
        }
        next := next + 1;
      }
      return Some(TransportError);
    }

    method Response() returns (error: Option<SdkError>)
      ensures error == if script.readable then None else Some(TransportError)
    {
      error := if script.readable then None else Some(TransportError);
    }
  }

  /** ychelpers/operation_wrapper.go, WaitForResult */
  method WaitForResult(sdk: Sdk, m: Mutation, script: Script) returns (error: Option<SdkError>)
    modifies sdk
    ensures (sdk.cloud, error) == Settle(old(sdk.cloud), m, FateOf(script))
  {
    var op := sdk.Submit(m, script);
    if op.Err? {
      return Some(op.error);
    }
    error := op.value.Wait();
    if error.Some? {
      return;
    }
    error := op.value.Response();
  }
}
