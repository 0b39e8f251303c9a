/** `PrintJournal`: the bridge's durable record, kept in memory and rewritten to
    disk as a whole on every change. */
module Journal {
  import opened Wrappers
  import opened PrintProtocol
  import opened JournalEntries
  import opened JournalCodec
  import opened JournalFile
  import opened World

  function DispatchingEntry(job: Job, p: Platform, now: string): JournalEntry {
    JournalEntry(job.id, job.attemptCount, job.printerDeviceId, p.hash(job.document), DISPATCHING, None, false, now)
  }

  function PrintedEntry(job: Job, result: PrintResult, p: Platform, recordedAt: string): JournalEntry {
    JournalEntry(job.id, job.attemptCount, job.printerDeviceId, p.hash(job.document), PRINTED, Some(result), false, recordedAt)
  }

  /** A file that does not block printing: missing, or one that loads. */
  predicate Readable(f: File, p: Platform) {
    f.Absent? || (f.Whole? && Decode(f.json, p).Some?)
  }

  /** The journal of a process that starts from the file. */
  function ReadFrom(f: File, p: Platform): Entries {
    if f.Whole? && Decode(f.json, p).Some? then Decode(f.json, p).value else []
  }

  /** `get(jobId, attemptCount)`. */
  function Get(es: Entries, id: string, attempt: int): Option<JournalEntry> {
    var e := Find(es, id);
    if e.Some? && e.value.attemptCount == attempt then e else None
  }

  /** The entries once `markAcknowledged` has flipped the flag and trimmed. */
  function Acked(es: Entries, id: string, p: Platform): Entries {
    var e := Find(es, id);
    if e.None? || e.value.acknowledged then es
    else Trim(Put(es, e.value.(acknowledged := true)), JOURNAL_LIMIT, p)
  }

  /** The entries after `markAcknowledged` has failed to write: the flag goes back
      on the same object, wherever trimming has left it. */
  function RolledBack(es: Entries, id: string, p: Platform): Entries {
    var e, after := Find(es, id), Acked(es, id, p);
    if e.None? || e.value.acknowledged || Find(after, id).None? then after
    else Put(after, e.value)
  }

  /** The rollback undoes the call exactly when the journal was within its bound;
      past it, the trim that ran first is not undone. */
  lemma {:induction false} RollbackRestores(es: Entries, id: string, p: Platform)
    requires Distinct(es) && HasUnacknowledged(es, id)
    ensures RolledBack(es, id, p) == es <==> |es| <= JOURNAL_LIMIT
  {
    var e := Find(es, id).value;
    var acked := e.(acknowledged := true);
    FindMeansIn(es, id);
    PutInPlace(es, acked);
    PutFinds(es, acked, id);
    if |es| <= JOURNAL_LIMIT {
      PutBack(es, e, acked);
    } else {
      var after := Acked(es, id, p);
      TrimSize(Put(es, acked), JOURNAL_LIMIT, p);
      FindMeansIn(Put(es, acked), id);
      UnacknowledgedMembers(Put(es, acked));
      AcknowledgedMembers(Put(es, acked));
      assert acked in Acknowledged(Put(es, acked));
      assert |after| < |es|;
      PutInPlace(after, e);
    }
  }

  lemma {:induction false} PutBack(es: Entries, e: JournalEntry, changed: JournalEntry)
    requires Find(es, e.jobId) == Some(e) && changed.jobId == e.jobId
    ensures Put(Put(es, changed), e) == es
  {
    if es[0].jobId != e.jobId {
      PutBack(es[1..], e, changed);
      assert Put(es, changed)[1..] == Put(es[1..], changed);
    } else {
      assert Put(es, changed)[1..] == es[1..];
    }
  }

  /** A completed `persist`, both as the sequence of its calls and as what can be found. */
  lemma {:induction false} PersistDone(d: Disk, json: Json, posix: bool, powerLoss: bool)
    ensures ApplyAll(d, PersistSteps(json, posix)) ==
            Disk(NoTemp, Whole(json), true, if posix then {Whole(json)} else d.durable + {Whole(json)})
    ensures posix || !powerLoss ==> Reloads(ApplyAll(d, PersistSteps(json, posix)), powerLoss) == {Whole(json)}
  {
    var steps := PersistSteps(json, posix);
    assert steps[..|steps|] == steps;
    PersistPrefix(d, json, posix, |steps|);
    PersistReturned(d, json, posix, powerLoss);
  }

  class PrintJournal {
    const world: Outside
    const platform: Platform
    var entries: Entries
    var loaded: bool

    constructor (world: Outside, platform: Platform)
      ensures this.world == world && this.platform == platform
      ensures entries == [] && !loaded
    {
      this.world, this.platform := world, platform;
      entries, loaded := [], false;
    }

    /** A missing file is an empty history; anything unreadable blocks printing. */
    method Load() returns (o: Outcome)
      modifies this, world`history
      ensures o.Done? ==> loaded && world.history == old(world.history)
      ensures o.Done? ==> match world.disk.visible
                          case Absent => entries == old(entries)
                          case Torn => false
                          case Whole(json) => Decode(json, platform) == Some(entries)
      ensures !o.Done? ==> !loaded && entries == old(entries) && OnlyFaults(old(world.history), world.history)
      ensures world.reliable ==> (o.Done? <==> Readable(world.disk.visible, platform))
    {
      loaded := false;
      var file;
      o, file := world.ReadJournal();
      if !o.Done? {
        return;
      }
      match file {
        case Absent =>
        case Torn =>
          world.NoteFault();
          return Failed;
        case Whole(json) =>
          if !json.JArray? {
            world.NoteFault();
            return Failed;
          }
          var recovered: Entries := [];
          for i := 0 to |json.items|
            invariant DecodeEntries(json.items[..i], platform) == Some(recovered)
            invariant world.history == old(world.history) && entries == old(entries) && !loaded
          {
            var entry := DecodeEntry(json.items[i], platform);
            assert json.items[..i + 1][..i] == json.items[..i];
            if entry.None? || Find(recovered, entry.value.jobId).Some? {
              RefusalIsFinal(json.items, i + 1, platform);
              world.NoteFault();
              return Failed;
            }
            recovered := recovered + [entry.value];
          }
          assert json.items[..|json.items|] == json.items;
          entries := recovered;
      }
      loaded := true;
    }

    /** The temporary file: opened, written, synced and closed, or nothing visible. */
    method WriteSynced(json: Json) returns (o: Outcome)
      modifies world
      ensures world.reliable ==> o.Done?
      ensures o.Done? ==> world.disk == old(world.disk).(temp := Temp(Whole(json), true))
      ensures world.disk == old(world.disk).(temp := world.disk.temp)
      ensures o.Done? ==> world.history == old(world.history)
      ensures !o.Done? ==> OnlyFaults(old(world.history), world.history)
      ensures world.asked == old(world.asked) && world.claims == old(world.claims)
      ensures if o.Done? then world.diskFaults == old(world.diskFaults) else world.diskFaults > old(world.diskFaults)
    {
      o := world.Call(OpenTemp);
      if !o.Done? {
        return;
      }
      var body := world.Call(WriteTemp(json));
      if body.Done? {
        body := world.Call(SyncTemp);
      }
      if body.Crashed? {
        return body;
      }
      o := world.Call(CloseTemp);
      if o.Done? && !body.Done? {
        return body;
      }
    }

    /** On POSIX the rename itself is made durable. */
    method SyncDirectoryEntry() returns (o: Outcome)
      modifies world
      ensures world.reliable ==> o.Done?
      ensures o.Done? ==> world.disk == Apply(old(world.disk), SyncDirectory)
      ensures world.disk == old(world.disk) || world.disk == Apply(old(world.disk), SyncDirectory)
      ensures o.Done? ==> world.history == old(world.history)
      ensures !o.Done? ==> OnlyFaults(old(world.history), world.history)
      ensures world.asked == old(world.asked) && world.claims == old(world.claims)
      ensures if o.Done? then world.diskFaults == old(world.diskFaults) else world.diskFaults > old(world.diskFaults)
    {
      o := world.Call(OpenDirectory);
      if !o.Done? {
        return;
      }
      var body := world.Call(SyncDirectory);
      if body.Crashed? {
        return body;
      }
      o := world.Call(CloseDirectory);
      if o.Done? && !body.Done? {
        return body;
      }
    }

    /** Rewrites the file: temporary file, sync, rename, and on POSIX the directory. */
    method Persist() returns (o: Outcome)
      modifies this`entries, world
      ensures world.reliable ==> o.Done?
      ensures entries == if loaded then Trim(old(entries), JOURNAL_LIMIT, platform) else old(entries)
      ensures !loaded ==> o.Done? && world.disk == old(world.disk)
      ensures o.Done? ==> world.history == old(world.history)
      ensures !o.Done? ==> OnlyFaults(old(world.history), world.history)
      ensures o.Done? && loaded ==> world.disk == ApplyAll(old(world.disk), PersistSteps(Encode(entries), world.posix))
      ensures o.Done? && loaded && (world.posix || !world.powerLoss) ==> world.Files() == {Whole(Encode(entries))}
      ensures world.Files() <= old(world.Files()) + {Whole(Encode(entries))}
      ensures old(world.disk.visible in world.disk.durable) ==> world.disk.visible in world.disk.durable
      ensures world.asked == old(world.asked) && world.claims == old(world.claims)
      ensures if o.Done? then world.diskFaults == old(world.diskFaults) else world.diskFaults > old(world.diskFaults)
    {
      if !loaded {
        return Done;
      }
      entries := Trim(entries, JOURNAL_LIMIT, platform);
      var json := Encode(entries);
      o := world.Call(MakeDirectory);
      if !o.Done? {
        return;
      }
      o := WriteSynced(json);
      if !o.Done? {
        return;
      }
      o := world.Call(Rename);
      if !o.Done? {
        return;
      }
      if world.posix {
        o := SyncDirectoryEntry();
        if !o.Done? {
          return;
        }
      }
      PersistDone(old(world.disk), json, world.posix, world.powerLoss);
    }

    method RecordDispatching(job: Job) returns (o: Outcome, ghost now: string)
      modifies this`entries, world
      ensures world.reliable ==> o.Done?
      ensures entries == (var es := Put(old(entries), DispatchingEntry(job, platform, now));
                          if loaded then Trim(es, JOURNAL_LIMIT, platform) else es)
      ensures o.Done? ==> world.history == old(world.history)
      ensures !o.Done? ==> OnlyFaults(old(world.history), world.history)
      ensures o.Done? && loaded ==> world.disk == ApplyAll(old(world.disk), PersistSteps(Encode(entries), world.posix))
      ensures o.Done? && loaded && (world.posix || !world.powerLoss) ==> world.Files() == {Whole(Encode(entries))}
      ensures world.Files() <= old(world.Files()) + {Whole(Encode(entries))}
      ensures old(world.disk.visible in world.disk.durable) ==> world.disk.visible in world.disk.durable
      ensures world.asked == old(world.asked) && world.claims == old(world.claims)
      ensures if o.Done? then world.diskFaults == old(world.diskFaults) else world.diskFaults > old(world.diskFaults)
    {
      var clock := world.Clock();
      now := clock;
      entries := Put(entries, DispatchingEntry(job, platform, clock));
      o := Persist();
    }

    method RecordPrinted(job: Job, result: PrintResult) returns (o: Outcome, ghost recordedAt: string)
      modifies this`entries, world
      ensures entries == (var es := Put(old(entries), PrintedEntry(job, result, platform, recordedAt));
                          if loaded then Trim(es, JOURNAL_LIMIT, platform) else es)
      ensures var current := Get(old(entries), job.id, job.attemptCount);
              current.Some? ==> recordedAt == current.value.recordedAt
      ensures world.reliable ==> o.Done?
      ensures o.Done? ==> world.history == old(world.history)
      ensures !o.Done? ==> OnlyFaults(old(world.history), world.history)
      ensures o.Done? && loaded && (world.posix || !world.powerLoss) ==> world.Files() == {Whole(Encode(entries))}
      ensures world.Files() <= old(world.Files()) + {Whole(Encode(entries))}
      ensures old(world.disk.visible in world.disk.durable) ==> world.disk.visible in world.disk.durable
      ensures world.asked == old(world.asked) && world.claims == old(world.claims)
      ensures if o.Done? then world.diskFaults == old(world.diskFaults) else world.diskFaults > old(world.diskFaults)
    {
      var current := Get(entries, job.id, job.attemptCount);
      var clock := world.Clock();
      var stamp := if current.Some? then current.value.recordedAt else clock;
      recordedAt := stamp;
      entries := Put(entries, PrintedEntry(job, result, platform, stamp));
      o := Persist();
    }

    method MarkAcknowledged(id: string) returns (o: Outcome)
      requires loaded
      modifies this`entries, world
      ensures world.reliable ==> o.Done?
      ensures o.Done? ==> entries == Acked(old(entries), id, platform)
      ensures o.Done? && HasUnacknowledged(old(entries), id) && (world.posix || !world.powerLoss) ==>
                world.Files() == {Whole(Encode(entries))}
      ensures o.Failed? ==> entries == RolledBack(old(entries), id, platform)
      ensures o.Done? ==> world.history == old(world.history)
      ensures !o.Done? ==> OnlyFaults(old(world.history), world.history)
      ensures world.Files() <= old(world.Files()) + {Whole(Encode(Acked(old(entries), id, platform)))}
      ensures old(world.disk.visible in world.disk.durable) ==> world.disk.visible in world.disk.durable
      ensures world.asked == old(world.asked) && world.claims == old(world.claims)
      ensures if o.Done? then world.diskFaults == old(world.diskFaults) else world.diskFaults > old(world.diskFaults)
    {
      var entry := Find(entries, id);
      if entry.None? || entry.value.acknowledged {
        return Done;
      }
      entries := Put(entries, entry.value.(acknowledged := true));
      FindMeansIn(old(entries), id);
      o := Persist();
      if o.Failed? {
        if Find(entries, id).Some? {
          entries := Put(entries, entry.value);
        }
      }
    }
  }
}
