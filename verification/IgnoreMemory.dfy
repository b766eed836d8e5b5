/** The liquidator's short-term memory of users to leave alone, with its file. */
module IgnoreMemory {

  import opened Wrappers

  // ---------- the memory as a value ----------

  /** value -> time at which it stops being ignored. */
  type Memory = map<string, int>

  function Remember(memory: Memory, value: string, now: nat, duration: int): Memory {
    memory[value := now + duration]
  }

  /** An expiry time of 0 reads as absent. */
  predicate Ignores(memory: Memory, value: string, now: nat) {
    value in memory && memory[value] != 0 && now < memory[value]
  }

  predicate Expired(memory: Memory, value: string, now: nat) {
    value in memory && memory[value] != 0 && now >= memory[value]
  }

  /** Asking about an expired value deletes it. */
  function Tidy(memory: Memory, value: string, now: nat): Memory {
    if Expired(memory, value, now) then memory - {value} else memory
  }

  // ---------- the class ----------

  datatype File = Missing | Unreadable | Stored(duration: int, memory: Memory)

  /** The state directory's memory file; it outlives the process. */
  class Disk {
    var file: File

    constructor ()
      ensures file == Missing
    {
      file := Missing;
    }
  }

  function OnFile(file: File): Memory {
    if file.Stored? then file.memory else map[]
  }

  class ShortTermIgnoreMemory {
    var memory: Memory
    var isInitialized: bool
    const ignoreDuration: int
    const disk: Disk? // null when no state directory is set

    /** Set up in milliseconds; nothing is read before the first use. */
    constructor (ignoreDurationInSeconds: int, disk: Disk?)
      ensures Valid() && !isInitialized && this.disk == disk && ignoreDuration == ignoreDurationInSeconds * 1000
      ensures Contents() == (if disk == null then map[] else OnFile(disk.file))
    {
      memory := map[];
      isInitialized := false;
      ignoreDuration := ignoreDurationInSeconds * 1000;
      this.disk := disk;
    }

    /** The file, once read, is kept equal to the memory. */
    ghost predicate Valid()
      reads this, disk
    {
      && (!isInitialized ==> memory == map[])
      && (isInitialized && disk != null ==>
            !disk.file.Unreadable? && OnFile(disk.file) == memory
            && (disk.file.Stored? ==> disk.file.duration == ignoreDuration))
    }

    /** The file can be read and was written for the same duration. */
    predicate Loadable()
      reads this, disk
    {
      isInitialized || disk == null || disk.file.Missing? || (disk.file.Stored? && disk.file.duration == ignoreDuration)
    }

    /** What the memory holds, whether or not it has been loaded yet. */
    ghost function Contents(): Memory
      reads this, disk
    {
      if isInitialized || disk == null then memory else OnFile(disk.file)
    }

    method InitializeIfNeeded() returns (ok: bool)
      requires Valid()
      modifies this
      ensures Valid() && ok == old(Loadable()) && Contents() == old(Contents())
      ensures ok <==> old(isInitialized) || disk == null || disk.file.Missing?
                      || (disk.file.Stored? && disk.file.duration == ignoreDuration)
      ensures ok ==> isInitialized
      ensures !ok ==> !isInitialized && !Loadable()
    {
      if isInitialized {
        return true;
      }
      if disk != null && !disk.file.Missing? {
        if disk.file.Unreadable? || disk.file.duration != ignoreDuration {
          return false;
        }
        memory := disk.file.memory;
      }
      isInitialized := true;
      return true;
    }

    method DumpToFileIfNeeded()
      requires isInitialized
      modifies disk
      ensures disk != null ==> disk.file == Stored(ignoreDuration, memory)
    {
      if disk != null {
        disk.file := Stored(ignoreDuration, memory);
      }
    }

    method Put(value: string, now: nat) returns (ok: bool)
      requires Valid()
      modifies this, disk
      ensures Valid() && ok == old(Loadable())
      ensures Contents() == if ok then Remember(old(Contents()), value, now, ignoreDuration) else old(Contents())
      ensures ok ==> isInitialized
    {
      ok := InitializeIfNeeded();
      if ok {
        memory := memory[value := now + ignoreDuration];
        DumpToFileIfNeeded();
      }
    }

    method IsIgnored(value: string, now: nat) returns (ok: bool, ignored: bool)
      requires Valid()
      modifies this, disk
      ensures Valid() && ok == old(Loadable())
      ensures ignored <==> ok && Ignores(old(Contents()), value, now)
      ensures Contents() == if ok then Tidy(old(Contents()), value, now) else old(Contents())
      ensures ok ==> isInitialized
    {
      ok := InitializeIfNeeded();
      if !ok || value !in memory || memory[value] == 0 {
        return ok, false;
      }
      if now < memory[value] {
        return ok, true;
      }
      memory := memory - {value};
      DumpToFileIfNeeded();
      return ok, false;
    }
  }

  /** A crash between two operations: a new process on the same disk holds the same memory. */
  method CrashAndReload(m: ShortTermIgnoreMemory, seconds: int) returns (again: ShortTermIgnoreMemory)
    requires m.Valid() && m.Loadable() && m.disk != null && m.ignoreDuration == seconds * 1000
    ensures again.Valid() && again.Loadable() && again.Contents() == m.Contents()
    ensures again.ignoreDuration == m.ignoreDuration
    ensures fresh(again) && again.disk == m.disk
  {
    again := new ShortTermIgnoreMemory(seconds, m.disk);
  }

  // ---------- the history it refines ----------

  datatype Op = PutOp(value: string, now: nat) | Ask(value: string, now: nat) | Crash

  /** The process's copy, once loaded, and the file. */
  datatype Store = Store(ram: Option<Memory>, file: Memory)

  function Loaded(s: Store): Memory {
    if s.ram.Some? then s.ram.value else s.file
  }

  function Apply(s: Store, duration: int, op: Op): Store {
    match op
    case PutOp(value, now) =>
      var m := Remember(Loaded(s), value, now, duration);
      Store(Some(m), m)
    case Ask(value, now) =>
      var m := Tidy(Loaded(s), value, now);
      Store(Some(m), if Expired(Loaded(s), value, now) then m else s.file)
    case Crash => s.(ram := None)
  }

  /** The answers to the questions in `ops`, in order. */
  function Answers(s: Store, duration: int, ops: seq<Op>): seq<bool>
    decreases |ops|
  {
    if ops == [] then []
    else (if ops[0].Ask? then [Ignores(Loaded(s), ops[0].value, ops[0].now)] else [])
         + Answers(Apply(s, duration, ops[0]), duration, ops[1..])
  }

  /** The specification: remember when each value was last put, forget nothing. */
  function HistoryAnswers(lastPut: map<string, nat>, duration: int, ops: seq<Op>): seq<bool>
    decreases |ops|
  {
    if ops == [] then []
    else match ops[0]
      case PutOp(value, now) => HistoryAnswers(lastPut[value := now], duration, ops[1..])
      case Ask(value, now) =>
        [value in lastPut && now < lastPut[value] + duration] + HistoryAnswers(lastPut, duration, ops[1..])
      case Crash => HistoryAnswers(lastPut, duration, ops[1..])
  }

  /** The clock never goes back, from `start` on. */
  predicate Ordered(start: nat, ops: seq<Op>)
    decreases |ops|
  {
    ops == [] ||
    if ops[0].Crash? then Ordered(start, ops[1..]) else start <= ops[0].now && Ordered(ops[0].now, ops[1..])
  }

  /** From `now` on, the memory answers as the history does. */
  ghost predicate Refines(memory: Memory, lastPut: map<string, nat>, duration: int, now: nat) {
    && (forall v | v in memory :: v in lastPut && memory[v] == lastPut[v] + duration)
    && (forall v | v in lastPut && v !in memory :: lastPut[v] + duration <= now)
  }

  lemma RefinesAnswers(memory: Memory, lastPut: map<string, nat>, duration: int, now: nat, value: string)
    requires Refines(memory, lastPut, duration, now)
    ensures Ignores(memory, value, now) <==> value in lastPut && now < lastPut[value] + duration
    ensures Refines(Tidy(memory, value, now), lastPut, duration, now)
    ensures Refines(Remember(memory, value, now, duration), lastPut[value := now], duration, now)
  {
  }

  ghost predicate StoreRefines(s: Store, lastPut: map<string, nat>, duration: int, now: nat) {
    Loaded(s) == s.file && Refines(s.file, lastPut, duration, now)
  }

  /** The memory refines its history: for every sequence of operations with a clock
      that does not go back, and crashes anywhere in it, each question is answered
      true exactly when it comes less than the duration after the last put. */
  lemma {:induction false} MemoryRefinesHistory(s: Store, lastPut: map<string, nat>, duration: int, now: nat,
                                                ops: seq<Op>)
    requires StoreRefines(s, lastPut, duration, now) && Ordered(now, ops)
    ensures Answers(s, duration, ops) == HistoryAnswers(lastPut, duration, ops)
    decreases |ops|
  {
    if ops != [] {
      var next := Apply(s, duration, ops[0]);
      match ops[0]
      case PutOp(value, t) =>
        RefinesAnswers(s.file, lastPut, duration, t, value);
        MemoryRefinesHistory(next, lastPut[value := t], duration, t, ops[1..]);
      case Ask(value, t) =>
        RefinesAnswers(s.file, lastPut, duration, t, value);
        MemoryRefinesHistory(next, lastPut, duration, t, ops[1..]);
      case Crash =>
        MemoryRefinesHistory(next, lastPut, duration, now, ops[1..]);
    }
  }

  function WithoutCrashes(ops: seq<Op>): seq<Op> {
    if ops == [] then [] else (if ops[0].Crash? then [] else [ops[0]]) + WithoutCrashes(ops[1..])
  }

  lemma {:induction false} HistoryIgnoresCrashes(lastPut: map<string, nat>, duration: int, now: nat, ops: seq<Op>)
    requires Ordered(now, ops)
    ensures HistoryAnswers(lastPut, duration, ops) == HistoryAnswers(lastPut, duration, WithoutCrashes(ops))
    ensures Ordered(now, WithoutCrashes(ops))
    decreases |ops|
  {
    if ops != [] {
      var rest := WithoutCrashes(ops[1..]);
      match ops[0]
      case PutOp(value, t) =>
        HistoryIgnoresCrashes(lastPut[value := t], duration, t, ops[1..]);
        assert WithoutCrashes(ops)[1..] == rest;
      case Ask(value, t) =>
        HistoryIgnoresCrashes(lastPut, duration, t, ops[1..]);
        assert WithoutCrashes(ops)[1..] == rest;
      case Crash =>
        HistoryIgnoresCrashes(lastPut, duration, now, ops[1..]);
        assert WithoutCrashes(ops) == rest;
    }
  }

  /** Crash transparency: the crashes could as well not have happened. */
  lemma CrashesChangeNoAnswer(duration: int, ops: seq<Op>)
    requires Ordered(0, ops)
    ensures Answers(Store(None, map[]), duration, ops) == Answers(Store(None, map[]), duration, WithoutCrashes(ops))
  {
    HistoryIgnoresCrashes(map[], duration, 0, ops);
    MemoryRefinesHistory(Store(None, map[]), map[], duration, 0, ops);
    MemoryRefinesHistory(Store(None, map[]), map[], duration, 0, WithoutCrashes(ops));
  }
}
