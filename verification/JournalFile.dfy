/** The file system under the journal, at the grain at which a crash can strike. */
module JournalFile {
  import opened Wrappers
  import opened JournalEntries
  import opened JournalCodec

  /** Content of a file: missing, unparsable, or one complete JSON text. */
  datatype File = Absent | Torn | Whole(json: Json)

  datatype Temp = NoTemp | Temp(content: File, synced: bool)

  /** `visible` is what reading the journal path returns while the machine stays
      up; `durable` is every content a power loss may leave there instead. */
  datatype Disk = Disk(temp: Temp, visible: File, synced: bool, durable: set<File>)

  datatype DiskStep = MakeDirectory | OpenTemp | WriteTemp(json: Json) | SyncTemp | CloseTemp | Rename | OpenDirectory | SyncDirectory | CloseDirectory

  /** One completed system call. */
  function Apply(d: Disk, step: DiskStep): Disk {
    match step
    case OpenTemp => d.(temp := Temp(Torn, false))
    case WriteTemp(json) => d.(temp := Temp(Whole(json), false))
    case SyncTemp => if d.temp.Temp? then d.(temp := Temp(d.temp.content, true)) else d
    case Rename =>
      if d.temp.NoTemp? then d
      else Disk(NoTemp, d.temp.content, d.temp.synced,
                d.durable + {d.temp.content} + if d.temp.synced then {} else {Torn})
    case SyncDirectory => d.(durable := {d.visible} + if d.synced then {} else {Torn})
    case _ => d
  }

  /** What an interrupted or failing call may leave behind besides `d` itself. */
  function Partial(d: Disk, step: DiskStep): Disk {
    if step.WriteTemp? then d.(temp := Temp(Torn, false)) else Apply(d, step)
  }

  function ApplyAll(d: Disk, steps: seq<DiskStep>): Disk {
    if steps == [] then d else Apply(ApplyAll(d, steps[..|steps| - 1]), steps[|steps| - 1])
  }

  /** The calls one `persist` makes, in order; Windows cannot sync a directory. */
  function PersistSteps(json: Json, posix: bool): seq<DiskStep> {
    [MakeDirectory, OpenTemp, WriteTemp(json), SyncTemp, CloseTemp, Rename]
    + if posix then [OpenDirectory, SyncDirectory, CloseDirectory] else []
  }

  /** Every content the next start of the bridge may find at the journal path. */
  function Reloads(d: Disk, powerLoss: bool): set<File> {
    {d.visible} + if powerLoss then d.durable else {}
  }

  /** A crash after any number of the calls leaves a whole journal: one of those
      that could be found before, or the new one. */
  lemma {:induction false} CrashDuringPersist(d: Disk, json: Json, posix: bool, powerLoss: bool, k: nat)
    requires k <= |PersistSteps(json, posix)|
    ensures Reloads(ApplyAll(d, PersistSteps(json, posix)[..k]), powerLoss) <= Reloads(d, powerLoss) + {Whole(json)}
    ensures k <= 5 ==> Reloads(ApplyAll(d, PersistSteps(json, posix)[..k]), powerLoss) == Reloads(d, powerLoss)
  {
    PersistPrefix(d, json, posix, k);
  }

  lemma {:induction false} OneStepLess(steps: seq<DiskStep>, k: nat)
    requires 0 < k <= |steps|
    ensures steps[..k][..k - 1] == steps[..k - 1]
  {
  }

  /** The disk after the first `k` calls, spelt out. */
  lemma {:induction false} PersistPrefix(d: Disk, json: Json, posix: bool, k: nat)
    requires k <= |PersistSteps(json, posix)|
    ensures ApplyAll(d, PersistSteps(json, posix)[..k]) ==
            if k <= 1 then d
            else if k == 2 then d.(temp := Temp(Torn, false))
            else if k == 3 then d.(temp := Temp(Whole(json), false))
            else if k <= 5 then d.(temp := Temp(Whole(json), true))
            else if k <= 7 then Disk(NoTemp, Whole(json), true, d.durable + {Whole(json)})
            else Disk(NoTemp, Whole(json), true, {Whole(json)})
  {
    if k > 0 {
      PersistPrefix(d, json, posix, k - 1);
      var steps := PersistSteps(json, posix);
      OneStepLess(steps, k);
      assert d.durable + {Whole(json)} + {} == d.durable + {Whole(json)};
      assert {Whole(json)} + {} == {Whole(json)};
    } else {
      assert PersistSteps(json, posix)[..0] == [];
    }
  }

  /** Once `persist` has returned, only the new journal can be found, exactly when
      the directory was synced, or power cannot fail, or nothing else was ever on
      its way to the disk. */
  lemma {:induction false} PersistReturned(d: Disk, json: Json, posix: bool, powerLoss: bool)
    ensures Reloads(ApplyAll(d, PersistSteps(json, posix)), powerLoss) == {Whole(json)}
            <==> posix || !powerLoss || d.durable <= {Whole(json)}
  {
    var steps := PersistSteps(json, posix);
    assert steps[..|steps|] == steps;
    PersistPrefix(d, json, posix, |steps|);
    if !posix && powerLoss {
      assert Reloads(ApplyAll(d, steps), powerLoss) == d.durable + {Whole(json)};
    }
  }

  /** On Windows a power loss right after a completed `persist` can bring back the
      journal from before it, without the entry that was just recorded. */
  lemma {:induction false} WindowsPowerLossForgets(before: Json, after: Json)
    requires before != after
    ensures var d := Disk(NoTemp, Whole(before), true, {Whole(before)});
            Whole(before) in Reloads(ApplyAll(d, PersistSteps(after, false)), true)
  {
    var d := Disk(NoTemp, Whole(before), true, {Whole(before)});
    var steps := PersistSteps(after, false);
    assert steps[..|steps|] == steps;
    PersistPrefix(d, after, false, |steps|);
  }
}
