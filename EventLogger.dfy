/** The in-memory audit logger of sentinel-backend/core/event_logger.py: a
    process-wide singleton holding a bounded, newest-first list of entries. */
module EventLogger {
  import opened Text

  /** At most this many entries are kept. */
  const MaxLogs := 50
  const DefaultTool := "Docker SDK"
  const DefaultDuration := 0

  /** The two readings of `datetime.now()` that `log` takes: the epoch
      timestamp rendered into the id, and the ISO time of the entry. */
  datatype ClockReading = ClockReading(epoch: string, iso: string)

  datatype LogEntry = LogEntry(
    id: string,
    timestamp: string,
    agentName: string,
    action: string,
    status: string,
    details: string,
    tool: string,
    duration: int)

  /** `f"evt_{ordinal}_{epoch}"` */
  function EventId(ordinal: nat, epoch: string): string {
    "evt_" + NatToString(ordinal) + "_" + epoch
  }

  /** The entry `log` builds when the list holds `ordinal - 1` entries. */
  function NewEntry(ordinal: nat, agent: string, action: string, status: string, details: string, clock: ClockReading): LogEntry {
    LogEntry(EventId(ordinal, clock.epoch), clock.iso, agent, action, status, details, DefaultTool, DefaultDuration)
  }

  /** The list after `insert(0, entry)` followed by `pop()` when it grew past 50. */
  function Logged(logs: seq<LogEntry>, entry: LogEntry): seq<LogEntry> {
    var grown := [entry] + logs;
    if |grown| > MaxLogs then grown[..|grown| - 1] else grown
  }

  /** After a log call the new entry is first, the earlier entries follow in
      their old order, the length is min(old length + 1, 50), and the only
      entry ever dropped is the oldest one. */
  lemma LoggedShape(logs: seq<LogEntry>, entry: LogEntry)
    requires |logs| <= MaxLogs
    ensures var r := Logged(logs, entry);
      && |r| == (if |logs| + 1 < MaxLogs then |logs| + 1 else MaxLogs)
      && r[0] == entry
      && r[1..] == logs[..|r| - 1]
      && (|logs| < MaxLogs ==> r[1..] == logs)
      && (|logs| == MaxLogs ==> r[1..] == logs[..MaxLogs - 1])
  {
  }

  /** Every stored entry carries the default tool and duration. */
  ghost predicate DefaultsHold(logs: seq<LogEntry>) {
    forall i :: 0 <= i < |logs| ==> logs[i].tool == DefaultTool && logs[i].duration == DefaultDuration
  }

  /** Once the list is full the numeric part of new ids stays at 51. */
  lemma FullListRepeatsOrdinal(logs: seq<LogEntry>, a: string, act: string, st: string, d: string, c: ClockReading)
    requires |logs| == MaxLogs
    ensures |Logged(logs, NewEntry(|logs| + 1, a, act, st, d, c))| == MaxLogs
    ensures NewEntry(|logs| + 1, a, act, st, d, c).id == EventId(51, c.epoch)
  {
  }

  /** The class `InMemoryLogger`: its class attributes `_logs` (shared by every
      instance) and `_instance` (here `created`). */
  class InMemoryLogger {
    var logs: seq<LogEntry>
    var created: bool

    ghost predicate Valid()
      reads this
    {
      |logs| <= MaxLogs && DefaultsHold(logs)
    }

    /** The class as it stands when the module is imported. */
    constructor ()
      ensures Valid() && logs == [] && !created
    {
      logs := [];
      created := false;
    }

    /** `InMemoryLogger()`: the first construction records the startup entry;
        later ones return the same instance and log nothing. */
    method Instantiate(clock: ClockReading)
      requires Valid()
      modifies this
      ensures Valid() && created
      ensures old(created) ==> logs == old(logs)
      ensures !old(created) ==> logs == Logged(old(logs), NewEntry(|old(logs)| + 1, "System", "Archestra Sentinel", "Startup", "System Initialized", clock))
    {
      if !created {
        created := true;
        Log("System", "Archestra Sentinel", "Startup", "System Initialized", clock);
      }
    }

    /** `log(agent, action, status, details)` */
    method Log(agent: string, action: string, status: string, details: string, clock: ClockReading)
      requires Valid()
      modifies this
      ensures Valid() && created == old(created)
      ensures logs == Logged(old(logs), NewEntry(|old(logs)| + 1, agent, action, status, details, clock))
      ensures logs[0].id == EventId(|old(logs)| + 1, clock.epoch)
    {
      var entry := NewEntry(|logs| + 1, agent, action, status, details, clock);
      logs := [entry] + logs;
      if |logs| > MaxLogs {
        logs := logs[..|logs| - 1];
      }
    }

    /** `get_logs()`: the stored list itself, newest first. */
    function GetLogs(): (r: seq<LogEntry>)
      reads this
      requires Valid()
      ensures r == logs && |r| <= MaxLogs
      ensures forall i :: 0 <= i < |r| ==> r[i].tool == DefaultTool && r[i].duration == DefaultDuration
    {
      logs
    }
  }

  /** `logger = InMemoryLogger()` at import time: the singleton starts with
      exactly the startup entry. */
  method ModuleInit(clock: ClockReading) returns (logger: InMemoryLogger)
    ensures fresh(logger) && logger.Valid() && logger.created
    ensures logger.logs == [NewEntry(1, "System", "Archestra Sentinel", "Startup", "System Initialized", clock)]
  {
    logger := new InMemoryLogger();
    logger.Instantiate(clock);
  }
}
