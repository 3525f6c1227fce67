/** The agent's process-wide context: one mutable record that the cycle loop
    refreshes, drains and prunes. */
module ContextStore {
  import opened Wrappers
  import opened Dicts
  import opened Seqs
  import opened PyValues

  /** An instant read from the injected clock, in milliseconds. The ISO text
      `datetime.now().isoformat()` gives it is not modelled. */
  type Timestamp = int

  /** Short-term memory keeps at most this many entries after a prune. */
  const MaxMemoryItems: nat := 100

  /** `{"timestamp": ..., "data": item}`. */
  datatype MemoryEntry = MemoryEntry(timestamp: Timestamp, data: Value)

  /** `current_context`: the six keys the agent knows, plus `extra` for any
      other key a saved file brings in. */
  datatype Context = Context(
    systemState: string,
    lastUpdate: Option<Timestamp>,
    activeTasks: seq<Value>,
    pendingInputs: seq<Value>,
    environmentData: Dict<string, Value>,
    shortTermMemory: seq<MemoryEntry>,
    extra: Dict<string, Value>)

  /** The context a new manager starts from. */
  function InitialContext(): (c: Context)
    ensures c.systemState == "initializing" && c.lastUpdate == None
    ensures c.activeTasks == [] && c.pendingInputs == [] && c.environmentData == []
    ensures c.shortTermMemory == [] && c.extra == []
  {
    Context("initializing", None, [], [], [], [], [])
  }

  /** The JSON object read from the context file: each known key that the
      file holds (`lastUpdate` may be present and `null`), and every other key
      in `extra`, in file order. */
  datatype SavedContext = SavedContext(
    systemState: Option<string>,
    lastUpdate: Option<Option<Timestamp>>,
    activeTasks: Option<seq<Value>>,
    pendingInputs: Option<seq<Value>>,
    environmentData: Option<Dict<string, Value>>,
    shortTermMemory: Option<seq<MemoryEntry>>,
    extra: Dict<string, Value>)

  /** What looking for the context file found. */
  datatype ContextFile = NoFile | Unreadable(error: string) | Saved(content: SavedContext)

  /** `current_context.update(saved_context)`. */
  function Merge(c: Context, s: SavedContext): Context {
    Context(
      s.systemState.GetOr(c.systemState),
      s.lastUpdate.GetOr(c.lastUpdate),
      s.activeTasks.GetOr(c.activeTasks),
      s.pendingInputs.GetOr(c.pendingInputs),
      s.environmentData.GetOr(c.environmentData),
      s.shortTermMemory.GetOr(c.shortTermMemory),
      Update(c.extra, s.extra))
  }

  /** Loading overwrites exactly the keys the file holds: a key present in
      the file takes the file's value, a missing one keeps what the context
      had (the defaults, on a fresh context). */
  lemma MergeOverwritesOnlySavedKeys(c: Context, s: SavedContext, k: string)
    requires UniqueKeys(s.extra)
    ensures var r := Merge(c, s);
      && (s.systemState.Some? ==> r.systemState == s.systemState.value)
      && (s.systemState.None? ==> r.systemState == c.systemState)
      && (s.lastUpdate.Some? ==> r.lastUpdate == s.lastUpdate.value)
      && (s.lastUpdate.None? ==> r.lastUpdate == c.lastUpdate)
      && (s.activeTasks.Some? ==> r.activeTasks == s.activeTasks.value)
      && (s.activeTasks.None? ==> r.activeTasks == c.activeTasks)
      && (s.pendingInputs.Some? ==> r.pendingInputs == s.pendingInputs.value)
      && (s.pendingInputs.None? ==> r.pendingInputs == c.pendingInputs)
      && (s.environmentData.Some? ==> r.environmentData == s.environmentData.value)
      && (s.environmentData.None? ==> r.environmentData == c.environmentData)
      && (s.shortTermMemory.Some? ==> r.shortTermMemory == s.shortTermMemory.value)
      && (s.shortTermMemory.None? ==> r.shortTermMemory == c.shortTermMemory)
      && (k in Keys(s.extra) ==> Get(r.extra, k) == Get(s.extra, k))
      && (k !in Keys(s.extra) ==> Get(r.extra, k) == Get(c.extra, k))
  {
    UpdateGet(c.extra, s.extra, k);
  }

  /** Loading the same file a second time changes nothing more. */
  lemma MergeIdempotent(c: Context, s: SavedContext)
    requires UniqueKeys(s.extra)
    ensures Merge(Merge(c, s), s) == Merge(c, s)
  {
    UpdateIdempotent(c.extra, s.extra);
  }

  /** `_prune_short_term_memory` on a memory list. */
  function PruneMemory(mem: seq<MemoryEntry>): (r: seq<MemoryEntry>)
    ensures |r| <= MaxMemoryItems
    ensures |mem| <= MaxMemoryItems ==> r == mem
    ensures |mem| > MaxMemoryItems ==> |r| == MaxMemoryItems && r == mem[|mem| - MaxMemoryItems..]
  {
    KeepLast(mem, MaxMemoryItems)
  }

  class ContextManager {
    var current: Context

    constructor ()
      ensures current == InitialContext()
    {
      current := InitialContext();
    }

    /** `load_initial_state`: merge a saved file over the context; a missing
        or unreadable file is logged and changes nothing. */
    method LoadInitialState(file: ContextFile)
      modifies this
      ensures file.Saved? ==> current == Merge(old(current), file.content)
      ensures !file.Saved? ==> current == old(current)
    {
      if file.Saved? {
        current := Merge(current, file.content);
      }
    }

    /** `update`: stamp the context, refresh the (empty) environment hook and
        prune the short-term memory. Tasks and pending inputs are untouched. */
    method Update(now: Timestamp)
      modifies this
      ensures current == old(current).(lastUpdate := Some(now),
                                       shortTermMemory := PruneMemory(old(current.shortTermMemory)))
      ensures |current.shortTermMemory| <= MaxMemoryItems
    {
      current := current.(lastUpdate := Some(now));
      UpdateEnvironmentData();
      PruneShortTermMemory();
    }

    /** `_update_environment_data`: a hook with no body in the source. */
    method UpdateEnvironmentData()
      modifies this
      ensures current == old(current)
    {
    }

    /** `_prune_short_term_memory`: keep the newest 100 entries. */
    method PruneShortTermMemory()
      modifies this
      ensures current == old(current).(shortTermMemory := PruneMemory(old(current.shortTermMemory)))
    {
      if |current.shortTermMemory| > MaxMemoryItems {
        current := current.(shortTermMemory :=
          current.shortTermMemory[|current.shortTermMemory| - MaxMemoryItems..]);
      }
    }

    /** `add_to_memory`: append one stamped entry; no pruning happens here. */
    method AddToMemory(item: Value, now: Timestamp)
      modifies this
      ensures current == old(current).(shortTermMemory :=
                                         old(current.shortTermMemory) + [MemoryEntry(now, item)])
    {
      current := current.(shortTermMemory := current.shortTermMemory + [MemoryEntry(now, item)]);
    }

    /** `get_pending_inputs`: hand back the pending list and leave an empty
        one in its place. */
    method GetPendingInputs() returns (inputs: seq<Value>)
      modifies this
      ensures inputs == old(current.pendingInputs)
      ensures current == old(current).(pendingInputs := [])
    {
      inputs := current.pendingInputs;
      current := current.(pendingInputs := []);
    }

    /** `add_task`: append to the active tasks. */
    method AddTask(task: Value)
      modifies this
      ensures current == old(current).(activeTasks := old(current.activeTasks) + [task])
    {
      current := current.(activeTasks := current.activeTasks + [task]);
    }

    /** `get_active_tasks`. */
    method GetActiveTasks() returns (tasks: seq<Value>)
      ensures tasks == current.activeTasks
    {
      tasks := current.activeTasks;
    }
  }
}
