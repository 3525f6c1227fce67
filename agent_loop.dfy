/** The cognitive cycle loop (`VaderLoop`): observe, drain pending inputs,
    decide, act, then pace to a 100 ms minimum cycle. Time comes from an
    injected clock in milliseconds; the host decides how long each cycle's
    work takes and when `stop()` is called. */
module AgentLoop {
  import opened Wrappers
  import opened Dicts
  import opened Seqs
  import opened PyValues
  import opened ContextStore

  /** Minimum length of a cycle, in milliseconds. */
  const MinCycleMs: nat := 100

  /** The injected clock: `time.time()` reads `now`, `time.sleep` advances it. */
  class Clock {
    var now: int

    constructor (start: int)
      ensures now == start
    {
      now := start;
    }

    method Advance(ms: nat)
      modifies this
      ensures now == old(now) + ms
    {
      now := now + ms;
    }
  }

  /** What happens outside the loop during one cycle: how many milliseconds
      the cycle's own steps take, and whether `stop()` is called meanwhile. */
  datatype HostCycle = HostCycle(workMs: nat, stopRequested: bool)

  /** The steps of one cycle, in the order they run. */
  datatype Step = Observe | Drain | Ingest | Decide | Act

  /** An action the loop could execute. */
  datatype Action = Action(command: string, params: Dict<string, Value>)

  /** `_determine_next_action`: the selection policy is a stub that never
      picks an action. */
  function DetermineNextAction(c: Context): (r: Option<Action>)
    ensures r.None?
  {
    None
  }

  /** `_process_inputs`: iterates `inputs.items()`. Only a dict has `items`;
      anything else raises `AttributeError`. */
  function ProcessInputs(inputs: Value): (r: Result<(), string>)
    ensures r.Ok? <==> inputs.Object?
    ensures r.Err? ==> r.error == NoAttributeText(TypeName(inputs), "items")
  {
    if inputs.Object? then Ok(())
    else Err(NoAttributeText(TypeName(inputs), "items"))
  }

  /** `_manage_cycle_timing`: how long to sleep after a cycle that took
      `elapsed` milliseconds. */
  function PacingSleep(elapsed: int): (s: nat)
    ensures elapsed + s >= MinCycleMs
    ensures elapsed < MinCycleMs ==> elapsed + s == MinCycleMs
    ensures elapsed >= MinCycleMs ==> s == 0
  {
    if elapsed < MinCycleMs then MinCycleMs - elapsed else 0
  }

  /** Wall time of one completed cycle: its work plus the pacing sleep. */
  function CycleSpan(workMs: nat): nat {
    workMs + PacingSleep(workMs)
  }

  /** Wall time of a run of completed cycles. */
  function PacedDuration(cycles: seq<HostCycle>): nat {
    if cycles == [] then 0
    else PacedDuration(cycles[..|cycles| - 1]) + CycleSpan(cycles[|cycles| - 1].workMs)
  }

  /** The wall time of one more cycle. */
  lemma PacedSnoc(host: seq<HostCycle>, n: nat)
    requires n < |host|
    ensures PacedDuration(host[..n + 1]) == PacedDuration(host[..n]) + CycleSpan(host[n].workMs)
  {
    assert host[..n + 1][..n] == host[..n];
  }

  /** Pacing bounds the cycle rate: n completed cycles take at least n * 100 ms,
      so a run lasting T ms completes at most T / 100 cycles. */
  lemma {:induction false} PacingBoundsRate(cycles: seq<HostCycle>)
    ensures PacedDuration(cycles) >= MinCycleMs * |cycles|
  {
    if cycles != [] {
      PacingBoundsRate(cycles[..|cycles| - 1]);
    }
  }

  /** When no cycle's work exceeds the interval, cycles are exactly 100 ms apart. */
  lemma {:induction false} PacingIsExactForShortWork(cycles: seq<HostCycle>)
    requires forall i :: 0 <= i < |cycles| ==> cycles[i].workMs <= MinCycleMs
    ensures PacedDuration(cycles) == MinCycleMs * |cycles|
  {
    if cycles != [] {
      PacingIsExactForShortWork(cycles[..|cycles| - 1]);
    }
  }

  /** The context after a cycle's observe and drain steps: stamped, pruned,
      and with no pending inputs left. */
  function Observed(c: Context, now: Timestamp): Context {
    c.(lastUpdate := Some(now), shortTermMemory := PruneMemory(c.shortTermMemory), pendingInputs := [])
  }

  /** Observing twice is observing once, at the later instant: pruning an
      already pruned memory keeps it as it is. */
  lemma ObservedTwice(c: Context, first: Timestamp, second: Timestamp)
    ensures Observed(Observed(c, first), second) == Observed(c, second)
  {
  }

  /** Index of the first cycle during which `stop()` is called (`|cycles|` if none). */
  function FirstStop(cycles: seq<HostCycle>): (r: nat)
    ensures r <= |cycles|
    ensures forall j :: 0 <= j < r ==> !cycles[j].stopRequested
    ensures r < |cycles| ==> cycles[r].stopRequested
  {
    if cycles == [] then 0
    else if cycles[0].stopRequested then 0
    else 1 + FirstStop(cycles[1..])
  }

  class VaderLoop {
    const context: ContextManager
    const clock: Clock
    var running: bool
    var cycleCount: nat
    /** Duration of the last completed cycle's steps, in milliseconds. */
    var lastCycleTime: int

    constructor (ctx: ContextManager, clk: Clock)
      ensures context == ctx && clock == clk
      ensures !running && cycleCount == 0 && lastCycleTime == 0
    {
      context := ctx;
      clock := clk;
      running := false;
      cycleCount := 0;
      lastCycleTime := 0;
    }

    /** `_execute_cycle`. The count goes up first; then the context is
        updated, pending inputs are drained and, when there are any, handed to
        `_process_inputs`, which raises; otherwise the (empty) decision is
        taken and the cycle's duration recorded. `fault` carries the text of
        the exception that escapes; `trace` lists the steps that ran. */
    method ExecuteCycle(workMs: nat) returns (fault: Option<string>, ghost trace: seq<Step>)
      modifies this, context, clock
      ensures cycleCount == old(cycleCount) + 1 && running == old(running)
      ensures context.current == Observed(old(context.current), old(clock.now))
      ensures fault.Some? <==> old(context.current.pendingInputs) != []
      ensures fault.Some? ==> fault.value == NoAttributeText("list", "items")
      ensures fault.Some? ==> clock.now == old(clock.now) && lastCycleTime == old(lastCycleTime)
      ensures fault.None? ==> clock.now == old(clock.now) + workMs && lastCycleTime == workMs
      ensures trace == if fault.Some? then [Observe, Drain, Ingest] else [Observe, Drain, Decide]
    {
      var cycleStart := clock.now;
      cycleCount := cycleCount + 1;
      fault := None;

      ghost var before := context.current;
      context.Update(clock.now);
      trace := [Observe];

      var inputs := context.GetPendingInputs();
      trace := trace + [Drain];
      assert context.current == Observed(before, cycleStart);
      if inputs != [] {
        trace := trace + [Ingest];
        var processed := ProcessInputs(List(inputs));
        match processed
        case Err(e) =>
          fault := Some(e);
          return;
        case Ok(_) =>
      }

      var next := DetermineNextAction(context.current);
      trace := trace + [Decide];
      if next.Some? {
        trace := trace + [Act];
      }

      clock.Advance(workMs);
      lastCycleTime := clock.now - cycleStart;
    }

    /** `_manage_cycle_timing`: sleep for the rest of the 100 ms interval. */
    method ManageCycleTiming()
      modifies clock
      ensures clock.now == old(clock.now) + PacingSleep(lastCycleTime)
    {
      if lastCycleTime < MinCycleMs {
        clock.Advance(MinCycleMs - lastCycleTime);
      }
    }

    /** `stop`: clear the flag; `run` notices at its next check. */
    method Stop()
      modifies this
      ensures !running
      ensures cycleCount == old(cycleCount) && lastCycleTime == old(lastCycleTime)
    {
      running := false;
    }

    /** One pass of `run`'s loop body: execute a cycle; when it raises,
        clear `running`; otherwise pace it and let a `stop()` arriving
        during it take effect. */
    method RunCycle(cycle: HostCycle) returns (faulted: bool)
      requires running
      modifies this, context, clock
      ensures cycleCount == old(cycleCount) + 1
      ensures faulted <==> old(context.current.pendingInputs) != []
      ensures context.current == Observed(old(context.current), old(clock.now))
      ensures faulted ==> !running && clock.now == old(clock.now) && lastCycleTime == old(lastCycleTime)
      ensures !faulted ==> running == !cycle.stopRequested && lastCycleTime == cycle.workMs &&
                           clock.now == old(clock.now) + CycleSpan(cycle.workMs)
    {
      var fault, _ := ExecuteCycle(cycle.workMs);
      faulted := fault.Some?;
      if faulted {
        running := false;
        return;
      }
      ManageCycleTiming();
      if cycle.stopRequested {
        Stop();
      }
    }

    /** `run`, over the cycles the host lets happen (`host`, one entry per
        cycle, bounds an otherwise endless loop). A cycle that raises clears
        `running` and ends the run; a `stop()` takes effect once the cycle in
        which it arrives is over. `cycles` is the number of cycles started and
        `faulted` tells whether the last of them raised. Every cycle observes
        the context, so the final context is the initial one observed at the
        start of the last cycle. */
    method Run(host: seq<HostCycle>) returns (cycles: nat, ghost faulted: bool)
      modifies this, context, clock
      ensures faulted <==> (host != [] && old(context.current.pendingInputs) != [])
      ensures cycles == if host == [] then 0
                        else if faulted then 1
                        else Min(FirstStop(host) + 1, |host|)
      ensures cycleCount == old(cycleCount) + cycles
      ensures running <==> !faulted && forall j :: 0 <= j < cycles ==> !host[j].stopRequested
      ensures clock.now == old(clock.now) + PacedDuration(host[..if faulted then 0 else cycles])
      ensures cycles == 0 ==> context.current == old(context.current)
      ensures cycles > 0 ==>
                context.current == Observed(old(context.current), old(clock.now) + PacedDuration(host[..cycles - 1]))
      ensures lastCycleTime == if faulted || cycles == 0 then old(lastCycleTime) else host[cycles - 1].workMs
    {
      running := true;
      cycles := 0;
      faulted := false;
      ghost var lastStart := clock.now;
      while running && cycles < |host|
        invariant cycles <= |host|
        invariant cycleCount == old(cycleCount) + cycles
        invariant faulted <==> (cycles >= 1 && old(context.current.pendingInputs) != [])
        invariant faulted ==> cycles == 1 && !running
        invariant running <==> !faulted && forall j :: 0 <= j < cycles ==> !host[j].stopRequested
        invariant forall j :: 0 <= j < cycles - 1 ==> !host[j].stopRequested
        invariant cycles == 0 ==> running && context.current == old(context.current)
        invariant cycles > 0 ==> lastStart == old(clock.now) + PacedDuration(host[..cycles - 1])
        invariant cycles > 0 ==> context.current == Observed(old(context.current), lastStart)
        invariant lastCycleTime == if faulted || cycles == 0 then old(lastCycleTime) else host[cycles - 1].workMs
        invariant !faulted ==> clock.now == old(clock.now) + PacedDuration(host[..cycles])
        invariant faulted ==> clock.now == old(clock.now)
      {
        assert forall j :: 0 <= j < cycles ==> !host[j].stopRequested;
        if cycles > 0 {
          ObservedTwice(old(context.current), lastStart, clock.now);
        }
        assert clock.now == old(clock.now) + PacedDuration(host[..cycles]);
        lastStart := clock.now;
        ghost var before := context.current;
        assert cycles > 0 ==> Observed(before, lastStart) == Observed(old(context.current), lastStart);
        faulted := RunCycle(host[cycles]);
        assert context.current == Observed(old(context.current), lastStart);
        if !faulted {
          PacedSnoc(host, cycles);
          assert (forall j :: 0 <= j < cycles + 1 ==> !host[j].stopRequested) <==> !host[cycles].stopRequested;
        }
        cycles := cycles + 1;
      }
      if !faulted && cycles > 0 && cycles < |host| {
        assert FirstStop(host) == cycles - 1;
      }
    }
  }
}
