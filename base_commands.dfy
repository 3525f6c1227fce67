/** `BaseCommands`: the operator commands. Each reads its parameters with
    defaults, calls the host (`vader`, an abstract service that may raise)
    and wraps the outcome in a status envelope; a host exception never
    escapes a handler. */
module Commands {
  import opened Wrappers
  import opened Dicts
  import opened PyValues

  /** The calls a handler makes on the host, with their arguments. */
  datatype HostCall =
    | GetStatus
    | GetActiveTasks
    | GetMemoryUsage
    | GetUptime
    | StartTask(kind: Value, taskParams: Value)
    | StopTask(taskId: Value, force: Value)
    | RestartComponent(component: Value, clean: Value)
    | ListResources(resourceType: Value, filter: Value)
    | GetConfig(path: Value)
    | SetConfig(path: Value, value: Value)

  /** The host: what each call returns, or the text of what it raises. */
  type Host = HostCall -> Result<Value, string>

  type Params = Dict<string, Value>

  /** `params.get(key, default)`. */
  function Param(params: Params, key: string, default: Value): (v: Value)
    ensures key in Keys(params) ==> Get(params, key) == Some(v)
    ensures key !in Keys(params) ==> v == default
  {
    GetOr(params, key, default)
  }

  /** The names `help` lists, in its order. */
  function CommandNames(): seq<string> {
    ["help", "status", "start", "stop", "restart", "list", "config"]
  }

  function CommandTable(): Dict<string, Value> {
    [("help", Str("Display this help message")),
     ("status", Str("Get system status")),
     ("start", Str("Start a task or process")),
     ("stop", Str("Stop a task or process")),
     ("restart", Str("Restart a component or process")),
     ("list", Str("List available resources or tasks")),
     ("config", Str("View or modify configuration"))]
  }

  /** `help`: always succeeds and describes exactly the seven commands. */
  function Help(): (r: Envelope)
    ensures r.Success? && |r.payload| == 1 && r.payload[0].0 == "commands"
    ensures r.payload[0].1.Object? && Keys(r.payload[0].1.fields) == CommandNames()
  {
    var table := CommandTable();
    assert Keys(table) == CommandNames();
    Success([("commands", Object(table))])
  }

  /** `status`: four host queries in order; the first one that raises turns
      the whole answer into an error carrying its text. `now` is the
      timestamp text the clock gives. */
  function Status(host: Host, now: string): (r: Envelope)
    ensures r.Success? <==> (host(GetStatus).Ok? && host(GetActiveTasks).Ok? &&
                             host(GetMemoryUsage).Ok? && host(GetUptime).Ok?)
    ensures host(GetStatus).Err? ==> r == Error(host(GetStatus).error)
    ensures host(GetStatus).Ok? && host(GetActiveTasks).Err? ==> r == Error(host(GetActiveTasks).error)
    ensures host(GetStatus).Ok? && host(GetActiveTasks).Ok? && host(GetMemoryUsage).Err? ==>
              r == Error(host(GetMemoryUsage).error)
    ensures host(GetStatus).Ok? && host(GetActiveTasks).Ok? && host(GetMemoryUsage).Ok? && host(GetUptime).Err? ==>
              r == Error(host(GetUptime).error)
    ensures r.Success? ==> r.payload == [("status_info", Object([
              ("timestamp", Str(now)),
              ("system_status", host(GetStatus).value),
              ("active_tasks", host(GetActiveTasks).value),
              ("memory_usage", host(GetMemoryUsage).value),
              ("uptime", host(GetUptime).value)]))]
  {
    match host(GetStatus)
    case Err(e) => Error(e)
    case Ok(status) =>
      match host(GetActiveTasks)
      case Err(e) => Error(e)
      case Ok(tasks) =>
        match host(GetMemoryUsage)
        case Err(e) => Error(e)
        case Ok(memory) =>
          match host(GetUptime)
          case Err(e) => Error(e)
          case Ok(uptime) =>
            Success([("status_info", Object([
              ("timestamp", Str(now)),
              ("system_status", status),
              ("active_tasks", tasks),
              ("memory_usage", memory),
              ("uptime", uptime)]))])
  }

  /** The call `start` makes: `type` defaults to `None`, `params` to `{}`. */
  function StartCall(params: Params): (c: HostCall)
    ensures c.StartTask?
    ensures "type" !in Keys(params) ==> c.kind == Null
    ensures "params" !in Keys(params) ==> c.taskParams == Object([])
    ensures "type" in Keys(params) ==> Get(params, "type") == Some(c.kind)
    ensures "params" in Keys(params) ==> Get(params, "params") == Some(c.taskParams)
  {
    StartTask(Param(params, "type", Null), Param(params, "params", Object([])))
  }

  /** `start`: the host's task id on success, its error text otherwise. */
  function Start(params: Params, host: Host): (r: Envelope)
    ensures r.Success? <==> host(StartCall(params)).Ok?
    ensures r.Success? ==> r.payload == [("task_id", host(StartCall(params)).value)]
    ensures r.Error? ==> r.message == host(StartCall(params)).error
  {
    Wrap("task_id", host(StartCall(params)))
  }

  /** The call `stop` makes: `task_id` defaults to `None`, `force` to `False`. */
  function StopCall(params: Params): (c: HostCall)
    ensures c.StopTask?
    ensures "task_id" !in Keys(params) ==> c.taskId == Null
    ensures "force" !in Keys(params) ==> c.force == Bool(false)
    ensures "task_id" in Keys(params) ==> Get(params, "task_id") == Some(c.taskId)
    ensures "force" in Keys(params) ==> Get(params, "force") == Some(c.force)
  {
    StopTask(Param(params, "task_id", Null), Param(params, "force", Bool(false)))
  }

  /** `stop`: the host's answer under `stopped`, or its error text. */
  function Stop(params: Params, host: Host): (r: Envelope)
    ensures r.Success? <==> host(StopCall(params)).Ok?
    ensures r.Success? ==> r.payload == [("stopped", host(StopCall(params)).value)]
    ensures r.Error? ==> r.message == host(StopCall(params)).error
  {
    Wrap("stopped", host(StopCall(params)))
  }

  /** The call `restart` makes: `component` defaults to `None`, `clean` to `False`. */
  function RestartCall(params: Params): (c: HostCall)
    ensures c.RestartComponent?
    ensures "component" !in Keys(params) ==> c.component == Null
    ensures "clean" !in Keys(params) ==> c.clean == Bool(false)
    ensures "component" in Keys(params) ==> Get(params, "component") == Some(c.component)
    ensures "clean" in Keys(params) ==> Get(params, "clean") == Some(c.clean)
  {
    RestartComponent(Param(params, "component", Null), Param(params, "clean", Bool(false)))
  }

  /** `restart`: the host's answer under `restarted`, or its error text. */
  function Restart(params: Params, host: Host): (r: Envelope)
    ensures r.Success? <==> host(RestartCall(params)).Ok?
    ensures r.Success? ==> r.payload == [("restarted", host(RestartCall(params)).value)]
    ensures r.Error? ==> r.message == host(RestartCall(params)).error
  {
    Wrap("restarted", host(RestartCall(params)))
  }

  /** The call `list` makes: `type` defaults to `'all'`, `filter` to `{}`. */
  function ListCall(params: Params): (c: HostCall)
    ensures c.ListResources?
    ensures "type" !in Keys(params) ==> c.resourceType == Str("all")
    ensures "filter" !in Keys(params) ==> c.filter == Object([])
    ensures "type" in Keys(params) ==> Get(params, "type") == Some(c.resourceType)
    ensures "filter" in Keys(params) ==> Get(params, "filter") == Some(c.filter)
  {
    ListResources(Param(params, "type", Str("all")), Param(params, "filter", Object([])))
  }

  /** `list`: the host's items, or its error text. */
  function List(params: Params, host: Host): (r: Envelope)
    ensures r.Success? <==> host(ListCall(params)).Ok?
    ensures r.Success? ==> r.payload == [("items", host(ListCall(params)).value)]
    ensures r.Error? ==> r.message == host(ListCall(params)).error
  {
    Wrap("items", host(ListCall(params)))
  }

  function InvalidAction(): string { "Invalid action" }

  /** The call `config` makes, if any: `action` defaults to `'view'`, `path`
      to `''` and `value` to `None`; `'view'` reads, `'set'` writes, and any
      other action makes no call at all. */
  function ConfigCall(params: Params): (c: Option<HostCall>)
    ensures var action := Param(params, "action", Str("view"));
      && (action == Str("view") ==> c == Some(GetConfig(Param(params, "path", Str("")))))
      && (action == Str("set") ==> c == Some(SetConfig(Param(params, "path", Str("")), Param(params, "value", Null))))
      && (action != Str("view") && action != Str("set") ==> c == None)
    ensures "action" !in Keys(params) ==> c.Some? && c.value.GetConfig?
  {
    var action := Param(params, "action", Str("view"));
    var path := Param(params, "path", Str(""));
    if action == Str("view") then Some(GetConfig(path))
    else if action == Str("set") then Some(SetConfig(path, Param(params, "value", Null)))
    else None
  }

  /** `config`: the host's answer under `config` (view) or `updated` (set);
      an unknown action is refused without consulting the host. */
  function Config(params: Params, host: Host): (r: Envelope)
    ensures ConfigCall(params).None? ==> r == Error(InvalidAction())
    ensures ConfigCall(params).Some? ==>
              var call := host(ConfigCall(params).value);
              && (r.Success? <==> call.Ok?)
              && (r.Error? ==> r.message == call.error)
              && (r.Success? ==>
                    r.payload == [(if ConfigCall(params).value.GetConfig? then "config" else "updated", call.value)])
  {
    match ConfigCall(params)
    case None => Error(InvalidAction())
    case Some(call) =>
      if call.GetConfig? then Wrap("config", host(call)) else Wrap("updated", host(call))
  }

  /** The answer to an unknown `config` action does not depend on the host. */
  lemma InvalidConfigActionIgnoresHost(params: Params, h1: Host, h2: Host)
    requires ConfigCall(params).None?
    ensures Config(params, h1) == Config(params, h2) == Error(InvalidAction())
  {
  }
}
