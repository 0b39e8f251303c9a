/** Everything outside the bridge process: the disk, the printer and the API.
    Each call may succeed, fail, or never return because the process dies, and
    when it does not succeed its effect may or may not have happened. Nothing
    restricts which jobs the server hands out, or when. */
module World {
  import opened Wrappers
  import opened PrintProtocol
  import opened JournalCodec
  import opened JournalFile

  datatype Job = Job(id: string, attemptCount: nat, printerDeviceId: string, document: string)

  /** What a claim response may hold: nothing, a job, or a job that fails
      validation, with or without a readable id and attempt. */
  datatype Payload =
    | NoJob
    | WellFormed(job: Job)
    | Malformed(id: string, attemptCount: nat)
    | Unreadable

  predicate IsClaimFor(e: Event, payload: Payload) {
    e.Claimed? &&
    match payload
    case NoJob => false
    case WellFormed(job) => e.id == job.id && e.attempt == job.attemptCount
    case Malformed(id, attempt) => e.id == id && e.attempt == attempt
    case Unreadable => true
  }

  /** A call whose whole effect is the event `e`. */
  predicate Did(before: History, o: Outcome, e: Event, after: History) {
    if o.Done? then after == before + [e]
    else after == before + [Fault] || after == before + [e] + [Fault]
  }

  /** No step since `before` failed. */
  predicate FaultFree(before: History, after: History) {
    forall i :: |before| <= i < |after| ==> after[i] != Fault
  }

  /** One or more steps failed since `before`, and nothing else happened. */
  predicate OnlyFaults(before: History, after: History) {
    && |before| < |after| && after[..|before|] == before
    && forall i :: |before| <= i < |after| ==> after[i] == Fault
  }

  /** A request made of the printer or the API, and how the call ended. */
  datatype Asked = Asked(event: Event, outcome: Outcome)

  class Outside {
    const posix: bool
    const powerLoss: bool
    /** Every call comes through; otherwise any of them may fail. */
    const reliable: bool
    var disk: Disk
    ghost var history: History
    /** The requests made and the polls, with what became of them, and how many calls to
        the file system did not come through. */
    ghost var asked: seq<Asked>
    ghost var claims: seq<Outcome>
    ghost var diskFaults: nat

    constructor (posix: bool, powerLoss: bool, reliable: bool)
      ensures this.posix == posix && this.powerLoss == powerLoss && this.reliable == reliable
      ensures history == [] && disk == Disk(NoTemp, Absent, true, {Absent})
    {
      this.posix, this.powerLoss, this.reliable := posix, powerLoss, reliable;
      disk := Disk(NoTemp, Absent, true, {Absent});
      history, asked, claims, diskFaults := [], [], [], 0;
    }

    /** What the next start of the bridge may find. */
    function Files(): set<File>
      reads this
    {
      Reloads(disk, powerLoss)
    }

    method ChooseOutcome() returns (o: Outcome)
      ensures reliable ==> o.Done?
    {
      var ok: bool, alive: bool := *, *;
      o := if ok || reliable then Done else if alive then Failed else Crashed;
    }

    method Call(step: DiskStep) returns (o: Outcome)
      modifies this
      ensures reliable ==> o.Done?
      ensures o.Done? ==> disk == Apply(old(disk), step) && history == old(history)
      ensures !o.Done? ==> history == old(history) + [Fault]
      ensures !o.Done? ==> disk in {old(disk), Partial(old(disk), step), Apply(old(disk), step)}
      ensures asked == old(asked) && claims == old(claims)
      ensures diskFaults == old(diskFaults) + if o.Done? then 0 else 1
    {
      o := ChooseOutcome();
      var took: bool, partly: bool := *, *;
      if o.Done? || took {
        disk := Apply(disk, step);
      } else if partly {
        disk := Partial(disk, step);
      }
      if !o.Done? {
        history, diskFaults := history + [Fault], diskFaults + 1;
      }
    }

    method ReadJournal() returns (o: Outcome, file: File)
      modifies this`history
      ensures reliable ==> o.Done?
      ensures o.Done? ==> file == disk.visible && history == old(history)
      ensures !o.Done? ==> history == old(history) + [Fault]
    {
      o := ChooseOutcome();
      file := disk.visible;
      if !o.Done? {
        history := history + [Fault];
      }
    }

    /** The process itself gives up on what it read. */
    ghost method NoteFault()
      modifies this`history
      ensures history == old(history) + [Fault]
    {
      history := history + [Fault];
    }

    /** The machine comes back up; after a power loss, with any durable content. */
    method Restart()
      requires disk.visible in disk.durable
      modifies this`disk
      ensures old(Files()) >= Files() && disk.visible in Files()
      ensures disk.visible in disk.durable
    {
      var lost: bool := *;
      if lost && powerLoss {
        var found :| found in disk.durable;
        LosePower(found);
      }
    }

    /** The power fails; what comes back is one of the durable contents. */
    method LosePower(found: File)
      requires powerLoss && found in disk.durable
      modifies this`disk
      ensures disk == Disk(NoTemp, found, true, {found})
    {
      disk := Disk(NoTemp, found, true, {found});
    }

    method Clock() returns (now: string)
    {
      now := *;
    }

    method Do(ghost e: Event) returns (o: Outcome)
      modifies this`history, this`asked
      ensures reliable ==> o.Done?
      ensures Did(old(history), o, e, history)
      ensures asked == old(asked) + [Asked(e, o)]
    {
      o := ChooseOutcome();
      asked := asked + [Asked(e, o)];
      var took: bool := *;
      if o.Done? || took {
        history := history + [e];
      }
      if !o.Done? {
        history := history + [Fault];
      }
    }

    method RequestClaim() returns (o: Outcome, payload: Payload)
      modifies this`history, this`claims
      ensures reliable ==> o.Done?
      ensures claims == old(claims) + [o]
      ensures o.Done? && payload.NoJob? ==> history == old(history)
      ensures o.Done? && !payload.NoJob? ==>
                |history| == |old(history)| + 1 && history[..|old(history)|] == old(history)
                && IsClaimFor(Last(history), payload)
      ensures !o.Done? ==>
                || history == old(history) + [Fault]
                || exists e: Event :: e.Claimed? && history == old(history) + [e] + [Fault]
    {
      payload := *;
      ghost var retries: nat := *;
      o := HandOut(payload, retries);
    }

    /** The server answers a claim with this payload. */
    method HandOut(payload: Payload, ghost retries: nat) returns (o: Outcome)
      modifies this`history, this`claims
      ensures reliable ==> o.Done?
      ensures claims == old(claims) + [o]
      ensures o.Done? && payload.NoJob? ==> history == old(history)
      ensures o.Done? && !payload.NoJob? ==>
                |history| == |old(history)| + 1 && history[..|old(history)|] == old(history)
                && IsClaimFor(Last(history), payload) && Last(history).retries == retries
      ensures !o.Done? ==>
                || history == old(history) + [Fault]
                || exists e: Event :: e.Claimed? && history == old(history) + [e] + [Fault]
    {
      ghost var id: string, attempt: int := *, *;
      match payload {
        case WellFormed(job) =>
          id, attempt := job.id, job.attemptCount;
        case Malformed(i, a) =>
          id, attempt := i, a;
        case _ =>
      }
      var took: bool := *;
      o := ChooseOutcome();
      claims := claims + [o];
      if !payload.NoJob? && (o.Done? || took) {
        history := history + [Claimed(id, attempt, retries)];
      }
      if !o.Done? {
        history := history + [Fault];
      }
    }

    method Print(job: Job, ghost hash: string) returns (o: Outcome, result: PrintResult)
      modifies this`history, this`asked
      ensures reliable ==> o.Done?
      ensures asked == old(asked) + [Asked(Dispatched(job.id, hash), o)]
      ensures o.Done? ==> history == old(history) + [Dispatched(job.id, hash)] + [Returned(job.id, hash, result)]
      ensures !o.Done? ==>
                || history == old(history) + [Fault]
                || history == old(history) + [Dispatched(job.id, hash)] + [Fault]
    {
      result := *;
      o := Do(Dispatched(job.id, hash));
      if o.Done? {
        history := history + [Returned(job.id, hash, result)];
      }
    }

    method SendSent(id: string, attempt: int) returns (o: Outcome)
      modifies this`history, this`asked
      ensures asked == old(asked) + [Asked(Sent(id, attempt), o)]
      ensures reliable ==> o.Done?
      ensures Did(old(history), o, Sent(id, attempt), history)
    {
      o := Do(Sent(id, attempt));
    }

    method SendReport(id: string, attempt: int, ghost hash: string, report: Report) returns (o: Outcome)
      modifies this`history, this`asked
      ensures asked == old(asked) + [Asked(Accepted(id, attempt, hash, report), o)]
      ensures reliable ==> o.Done?
      ensures Did(old(history), o, Accepted(id, attempt, hash, report), history)
    {
      o := Do(Accepted(id, attempt, hash, report));
    }
  }
}
