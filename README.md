# Project-StormWater agent core in Dafny

This project models the core of the StormWater ("Vader") agent:

- the process-wide context store;
- the cognitive cycle loop that drives it;
- the skill registry and the model router;
- the operator commands;
- the components reached through `execute(operation, params)`: configuration
  loading and validation, report generation, system health checks, network
  scanning and self-optimization.

Each Python handler answers a dict of the form
`{"status": "success", ...}` or `{"status": "error", "message": ...}`.
The model writes these as `PyValues.Envelope`. A handler that falls through
answers `None`, which the model writes as `Option.None`.

Python values are modelled as follows:

- JSON-shaped values become `PyValues.Value`.
- Python dicts become ordered association lists (`Dicts.Dict`), because
  insertion order is visible: it fixes CSV column order, template
  substitution order, schema checking order and the order of listed skills.
- A raised exception becomes `Result.Err` carrying its text.

Everything outside the process is a parameter. That covers the clock, the
file system, psutil, nmap, HTTP, the JSON/YAML/Markdown libraries, the
`vader` host object, and the optimizer helpers that the code calls but
never defines. Each parameter either returns a value or returns the text of
what it raised.

Objects whose fields the source updates in place are classes:

- `ContextManager`, `VaderLoop` and `Clock`;
- `SkillEngine` and `ModelRouter`;
- `ConfigLoader` and `ReportGenerator`;
- `SystemHealth` and `SelfOptimizer`.

The loops are methods proved against specification functions. These
include:

- `.env` parsing;
- schema validation;
- template substitution;
- CSV conversion;
- the health-alert checks;
- the nmap result filters;
- the optimization-history loop.

`Outcomes.Collect` is the shape the schema check and the nmap filters share:
each step either raises or yields a list of items, the first step that
raises decides the result, and otherwise all items are gathered in order.

## Model

| member | source | states |
|---|---|---|
| ContextStore.InitialContext | context_manager.py:11-18 | A fresh context has state 'initializing', no last update, and empty active tasks, pending inputs, environment data and short-term memory. |
| ContextStore.MergeOverwritesOnlySavedKeys | context_manager.py:26 | Loading a saved context overwrites exactly the keys the file holds. Every other key keeps its value. |
| ContextStore.MergeIdempotent | context_manager.py:26 | Loading the same saved context twice gives the same context as loading it once. |
| ContextStore.PruneMemory | context_manager.py:52-57 | After pruning, memory holds at most 100 entries. It is unchanged when it held 100 or fewer. Otherwise it is exactly the last 100 entries, in order. |
| ContextStore.ContextManager.constructor | context_manager.py:8-18 | A new manager holds the initial context. |
| ContextStore.ContextManager.LoadInitialState | context_manager.py:20-29 | A saved file is merged over the context. A missing or unreadable file leaves the context unchanged and raises nothing. |
| ContextStore.ContextManager.Update | context_manager.py:41-45 | Sets the last update and prunes memory to at most 100 entries. Nothing else changes, including active tasks and pending inputs. |
| ContextStore.ContextManager.UpdateEnvironmentData | context_manager.py:47-50 | The hook changes nothing. |
| ContextStore.ContextManager.PruneShortTermMemory | context_manager.py:52-57 | Memory becomes its pruned form. Every other key is unchanged. |
| ContextStore.ContextManager.AddToMemory | context_manager.py:59-64 | Appends exactly one `{timestamp, data}` entry at the end. Earlier entries are unchanged and no pruning happens. |
| ContextStore.ContextManager.GetPendingInputs | context_manager.py:66-70 | Returns the previous pending list and leaves it empty. Nothing else changes. |
| ContextStore.ContextManager.AddTask | context_manager.py:72-74 | Appends the task at the end of the active tasks. Nothing else changes. |
| ContextStore.ContextManager.GetActiveTasks | context_manager.py:76-78 | Returns the active tasks as they are. |
| AgentLoop.DetermineNextAction | agent_loop.py:50-53 | The selection stub never picks an action. |
| AgentLoop.ProcessInputs | agent_loop.py:44-48 | Iterating `inputs.items()` succeeds exactly on a dict. Anything else raises the `AttributeError` text for `items`. |
| AgentLoop.PacingSleep | agent_loop.py:60-63 | The sleep tops a short cycle up to exactly 100 ms. A cycle of 100 ms or more does not sleep. |
| AgentLoop.PacingBoundsRate | agent_loop.py:60-63 | n completed cycles take at least n × 100 ms. |
| AgentLoop.PacingIsExactForShortWork | agent_loop.py:60-63 | When no cycle's work exceeds 100 ms, n cycles take exactly n × 100 ms. |
| AgentLoop.FirstStop | agent_loop.py:65-67 | Gives the first cycle during which `stop()` arrives. No earlier cycle requested a stop. |
| AgentLoop.Clock.Advance | agent_loop.py:63 | Sleeping advances the clock by exactly the time slept. |
| AgentLoop.VaderLoop.constructor | agent_loop.py:6-11 | A new loop is not running, with cycle count 0 and last cycle time 0. |
| AgentLoop.VaderLoop.ExecuteCycle | agent_loop.py:24-48 | Counts the cycle, stamps and prunes the context, and drains pending inputs. Non-empty inputs make `_process_inputs` raise on the list, before the duration is recorded. Otherwise the cycle decides and records its duration. The steps run in order. |
| AgentLoop.VaderLoop.ManageCycleTiming | agent_loop.py:60-63 | Advances the clock by the pacing sleep. |
| AgentLoop.VaderLoop.Stop | agent_loop.py:65-67 | Clears `running` and leaves the counters alone. |
| AgentLoop.VaderLoop.RunCycle | agent_loop.py:16-22 | One pass of the loop body. A cycle that raises clears `running` and does not pace. Otherwise the clock advances by the work plus the pacing sleep, the duration is recorded, and `running` stays set unless `stop()` arrived. The context is observed at the cycle's start. |
| AgentLoop.VaderLoop.Run | agent_loop.py:13-22 | States how many cycles run: a faulting first cycle ends the run, and otherwise the loop stops after the cycle in which `stop()` arrives. Also states the final cycle count, the `running` flag, the total paced time and the last recorded duration. Without a cycle the context is unchanged. Otherwise it is the initial context observed once, stamped at the last cycle's start: pending inputs drained, memory pruned, every other key as it was. |
| AgentLoop.ObservedTwice | context_manager.py:41-57 | Observing the context a second time equals observing it once at the later instant, because pruning a pruned memory keeps it. |
| Skills.SkillEngine.constructor | shared/skill_engine.py:7-21 | The registry is the loaded file, or empty when no file was loaded. |
| Skills.SkillEngine.ExecuteSkill | shared/skill_engine.py:23-35 | An unknown skill answers `None`. A registered one answers success naming the skill. |
| Skills.SkillEngine.ListAvailableSkills | shared/skill_engine.py:37-39 | The registry's names, in registry order. |
| Skills.SkillEngine.RegisterSkill | shared/skill_engine.py:41-44 | Binds the name to the config and leaves every other entry unchanged. Afterwards the skill is listed and executes. |
| Models.ModelRouter.constructor | mobile/model_router.py:5-10 | A new router knows 'llm' and 'vision', both without a handler. |
| Models.ModelRouter.RouteRequest | mobile/model_router.py:12-27 | An unknown type answers `None`. So does a type without a handler. A registered handler's answer is returned, and `None` if it raised. |
| Models.ModelRouter.RegisterModel | mobile/model_router.py:29-32 | Binds the type to the handler and leaves every other type unchanged. |
| Models.FreshRouterAnswersNull | mobile/model_router.py:7-22 | A fresh router answers `None` to every request. |
| Commands.Param | base_commands.py:47-48 | `params.get(key, default)`: the value present, or the default. |
| Commands.Help | base_commands.py:10-25 | Always succeeds with a single `commands` entry. That entry is a dict whose keys are exactly the seven command names, in order. |
| Commands.Status | base_commands.py:27-42 | Succeeds exactly when all four host queries succeed. The first query that raises gives the error. On success the status info holds the four answers. |
| Commands.StartCall | base_commands.py:47-50 | `type` defaults to `None` and `params` to `{}`. Present values are passed through. |
| Commands.Start | base_commands.py:44-56 | Answers the host's task id, or the host's error text. |
| Commands.StopCall | base_commands.py:61-64 | `task_id` defaults to `None` and `force` to `False`. |
| Commands.Stop | base_commands.py:58-70 | Answers the host's result under `stopped`, or its error text. |
| Commands.RestartCall | base_commands.py:75-78 | `component` defaults to `None` and `clean` to `False`. |
| Commands.Restart | base_commands.py:72-84 | Answers the host's result under `restarted`, or its error text. |
| Commands.ListCall | base_commands.py:89-92 | `type` defaults to 'all' and `filter` to `{}`. |
| Commands.List | base_commands.py:86-98 | Answers the host's items, or its error text. |
| Commands.ConfigCall | base_commands.py:103-120 | `action` defaults to 'view' and `path` to ''. 'view' asks for the config and 'set' sets the value. Any other action makes no call. |
| Commands.Config | base_commands.py:100-122 | 'view' answers under `config` and 'set' under `updated`. A host error gives its text. Any other action gives "Invalid action". |
| Commands.InvalidConfigActionIgnoresHost | base_commands.py:119-120 | The answer to an invalid action does not depend on the host. |
| Configs.ParseEnvFile | config_loader.py:105-112 | The loop computes the settings the lines denote, or the unpacking error of the first line without '='. |
| Configs.EnvErrorPersists | config_loader.py:107-111 | After a bad line, nothing later matters. |
| Configs.EnvSkipsLine | config_loader.py:108-109 | Blank and comment lines set nothing. |
| Configs.EnvSettingWins | config_loader.py:110-111 | A setting line binds the stripped key to the stripped text after its first '=', overriding earlier settings. Other keys are unchanged. |
| Configs.EnvLineWithoutEquals | config_loader.py:110 | A non-comment line without '=' raises the unpacking error. |
| Configs.EnvRoundTrip | config_loader.py:105-112 | Parsing `k=v` lines written from distinct, safe entries gives back exactly those entries, in order. |
| Configs.TypeErrors | config_loader.py:121-123 | Without a `type` rule there is no error. With one, "Invalid type for key" appears exactly when the check fails, and a check that raises propagates. |
| Configs.ValueErrors | config_loader.py:124-125 | Without a `values` rule there is no error. With one, "Invalid value for key" appears exactly when `in` says the value is not allowed, and an `in` that raises propagates. |
| Configs.KeyErrors | config_loader.py:117-125 | A requirements value that is not a dict raises (no `get`). A raising `key in data` propagates. A missing key is reported exactly when required. A present key without a `type` or `values` rule adds nothing and `data[key]` is never read, whatever the type of `data`. With a rule, indexing non-dict data raises. A present key of a dict gets its type error and then its value error. At most two errors arise per key. |
| Configs.Validation | config_loader.py:114-130 | A schema that is not a dict raises (no `items`). Otherwise the result is the schema's errors in schema order. |
| Configs.ValidateAgainstSchema | config_loader.py:114-130 | The loop computes `Validation`. |
| Configs.SchemaErrorsConcat | config_loader.py:117 | Errors come in schema order: a split schema's errors are the first part's followed by the second's. |
| Configs.NoErrorsIffEveryEntryPasses | config_loader.py:127-128 | A schema is valid exactly when every entry finds no error. |
| Configs.MissingRequiredReported | config_loader.py:118-119 | A required key missing from the data is reported by name. |
| Configs.ReadConfigFile | config_loader.py:94-103 | A `.env` file reads as its parsed settings, or raises the parser's error. |
| Configs.LoadStep | config_loader.py:29-43 | An unhashable name raises `TypeError`. A cached name is answered from the cache. A missing file gives "Config 'name' not found". A read file is cached. Errors leave the cache unchanged. |
| Configs.SaveStep | config_loader.py:45-56 | A failed write answers its error and leaves the cache. Otherwise the answer is the path `config/<name>.json` and the cache binds the name to the data. |
| Configs.SaveThenLoad | config_loader.py:29-56 | After a successful save, loading the name answers the saved data. |
| Configs.LoadIsCached | config_loader.py:29-43 | Loading a name a second time answers the same and changes nothing. |
| Configs.ValidationEnvelope | config_loader.py:127-130 | `valid` is true exactly when there are no errors. `errors` lists them. |
| Configs.ValidateStep | config_loader.py:68-85 | A failed load is answered as it is. Otherwise the answer is the validation of the loaded config. The cache is as after the load. |
| Configs.ParseRequest | config_loader.py:15-24 | Unknown operations fall through. 'list' needs nothing. A missing `name`, `data` or `schema` raises its `KeyError`, read in source order. |
| Configs.ConfigLoader.constructor | config_loader.py:9-13 | The cache starts empty. |
| Configs.ConfigLoader.LoadConfig | config_loader.py:29-43 | The answer and the new cache are `LoadStep`'s. |
| Configs.ConfigLoader.SaveConfig | config_loader.py:45-56 | The answer and the new cache are `SaveStep`'s. |
| Configs.ConfigLoader.ListConfigs | config_loader.py:58-66 | Answers the stems of the files found. |
| Configs.ConfigLoader.ValidateConfig | config_loader.py:68-85 | The answer and the new cache are `ValidateStep`'s. |
| Configs.ConfigLoader.Execute | config_loader.py:15-27 | An unknown operation answers `None` with the cache unchanged. A missing parameter answers its `KeyError` text. Otherwise the operation's answer and cache effect. |
| Reports.Preview | mobile/report_generator.py:60 | Content of up to 1000 characters is shown whole. Longer content becomes its first 1000 characters plus "...". |
| Reports.SubstituteWithoutPlaceholders | mobile/report_generator.py:79-80 | A template without '{' is left as it is. |
| Reports.FillOnePlaceholder | mobile/report_generator.py:79-80 | `{key}` is replaced by `str(value)`, and the surrounding text is kept. |
| Reports.Cells | mobile/report_generator.py:120 | Each cell is `str(item.get(h, ''))`: the value's text, or '' when the header is missing. |
| Reports.ValueTexts | mobile/report_generator.py:114 | The `str` of each value, in order. |
| Reports.ListLines | mobile/report_generator.py:115-120 | For a list whose first item is a dict, the lines are a header of that dict's keys followed by one row per item, each row under those headers. The result is `None` exactly when the first item has keys and some item is not a dict. Any other list gives no lines. |
| Reports.KeylessFirstItem | mobile/report_generator.py:117-120 | When the first item is an empty dict, no `get` is called: the lines are an empty header and one empty row per item, whatever the later items are. |
| Reports.ListRows | mobile/report_generator.py:115-120 | The header-then-rows loop computes `ListLines`. |
| Reports.CsvLines | mobile/report_generator.py:109-123 | Undecodable content gives up. A dict gives its keys line and its values line. A list gives `ListLines`. Anything else gives no lines. |
| Reports.CsvOf | mobile/report_generator.py:107-123 | Content that does not decode is returned unchanged. |
| Reports.ConvertToCsv | mobile/report_generator.py:107-123 | The row-by-row loop computes `CsvOf`. |
| Reports.RowSplits | mobile/report_generator.py:120 | Splitting a row on ',' gives back its cells when no cell holds ','. |
| Reports.CsvSplitsIntoLines | mobile/report_generator.py:121 | Splitting the CSV text on newlines gives back its lines when no line holds a newline. |
| Reports.FormatContent | mobile/report_generator.py:83-93 | 'md', 'txt' and unknown formats keep the content. 'html' renders Markdown, 'json' wraps the content, and 'csv' converts it. |
| Reports.ReportGenerator.constructor | mobile/report_generator.py:10-13 | The templates are those loaded at construction. |
| Reports.ReportGenerator.TemplateName | mobile/report_generator.py:74-75 | A known template is used. Anything else falls back to 'default'. |
| Reports.ReportGenerator.TemplateOutcome | mobile/report_generator.py:73-81 | Succeeds exactly when the chosen template exists and the data is a dict. A missing 'default' raises `KeyError`. Empty data leaves the template text unchanged. |
| Reports.ReportGenerator.UnknownTemplateFallsBack | mobile/report_generator.py:74-77 | An unknown template name is answered as 'default' would be. |
| Reports.ReportGenerator.ApplyTemplate | mobile/report_generator.py:73-81 | One `replace` per data entry, in order, computing `TemplateOutcome`. |
| Reports.ReportGenerator.PreviewReport | mobile/report_generator.py:55-63 | Answers the preview of the filled template, or the error of filling it. |
| Reports.ReportGenerator.GenerateReport | mobile/report_generator.py:31-47 | An unsupported format is refused before any template work. Otherwise the filled and formatted content is saved. The answer carries the saved path, the format and the template name as requested, or the first error. |
| Reports.ReportGenerator.ListTemplates | mobile/report_generator.py:49-53 | Lists the template names, in order. |
| Health.Exceeded | shared/system_health.py:152-166 | A component is listed exactly when its reading is strictly above its threshold (80, 85, 90). Components are listed in the order cpu, memory, disk, without repeats. |
| Health.PerExceeded | shared/system_health.py:152-171 | Gives one entry per exceeded threshold, in the order of `Exceeded`. Each entry is the given function applied to that component. |
| Health.AppendPerExceeded | shared/system_health.py:152-171 | The three appending threshold tests compute `PerExceeded`. |
| Health.AlertFor | shared/system_health.py:153-171 | An alert is a warning for its component. Its message is "High CPU/memory/disk usage: " followed by the reading's text and "%". |
| Health.AlertsFor | shared/system_health.py:148-173 | One alert per exceeded threshold, in order, with at most three alerts. |
| Health.GenerateAlerts | shared/system_health.py:148-173 | The three checks compute `AlertsFor`. |
| Health.GenerateRecommendations | shared/system_health.py:196-219 | One fixed recommendation per exceeded threshold, in order. A failed check has no `health_data` and raises `KeyError`. |
| Health.SumBounds | shared/system_health.py:184-193 | A sum of n readings between lo and hi lies between n·lo and n·hi. |
| Health.MeanBetween | shared/system_health.py:184-193 | The mean of readings between lo and hi lies between them. |
| Health.MeanBounds | shared/system_health.py:185-192 | The mean lies between the minimum and the maximum. |
| Health.StatsOf | shared/system_health.py:184-193 | min ≤ avg ≤ max. min and max are readings that bound every reading. |
| Health.Analyze | shared/system_health.py:175-194 | An empty history gives nothing. Otherwise the cpu and memory statistics bound every record. |
| Health.SystemHealth.constructor | shared/system_health.py:10-19 | The history is the loaded one. |
| Health.SystemHealth.UpdateHealthHistory | shared/system_health.py:135-146 | Appends the record and keeps the newest 1000. The record is last, and below the cap nothing is dropped. |
| Health.SystemHealth.AnalyzeHistory | shared/system_health.py:175-194 | Analyses the current history. |
| Health.SystemHealth.CheckHealth | shared/system_health.py:21-43 | A failed sample answers its error and leaves the history. Otherwise the sample is recorded and answered with its alerts. |
| Health.SystemHealth.GenerateReport | shared/system_health.py:45-60 | A failed check makes the report fail with the `KeyError` text for `health_data`. Otherwise the report holds the check, the analysis of the updated history and the fixed recommendation of each exceeded threshold, in order. |
| Scanner.PortEntry | mobile/net_scanner.py:72-76 | The service and version are the port's, and default to 'unknown'. |
| Scanner.PortOutcome | mobile/net_scanner.py:71-76 | A port adds its entry exactly when its state is 'open'. A port without a state raises `KeyError`. |
| Scanner.HostOutcome | mobile/net_scanner.py:69 | A host without a `tcp` entry adds nothing. |
| Scanner.ParseHostPorts | mobile/net_scanner.py:70-76 | The inner loop computes one host's open ports. |
| Scanner.ParseScanResults | mobile/net_scanner.py:66-77 | The nested loops compute `OpenPorts`. |
| Scanner.OpenPortsSound | mobile/net_scanner.py:66-77 | Every listed entry comes from an open tcp port of some host. |
| Scanner.OpenPortsComplete | mobile/net_scanner.py:66-77 | Every open tcp port of every host is listed. |
| Scanner.OpenPortsExactly | mobile/net_scanner.py:66-77 | An entry is listed exactly when it belongs to an open tcp port of some host. |
| Scanner.OpenPortsFailIff | mobile/net_scanner.py:71 | Parsing raises exactly when some tcp port has no state. |
| Scanner.OpenPortsConcat | mobile/net_scanner.py:68 | Entries come in host order. |
| Scanner.HostWithoutTcpIgnored | mobile/net_scanner.py:69 | A host without `tcp` changes nothing, wherever it appears. |
| Scanner.OpenPortsWithin | mobile/net_scanner.py:67-77 | The list is never longer than the total number of tcp ports. |
| Scanner.HostState | mobile/net_scanner.py:82 | Reads `['status']['state']`, or raises what that indexing raises. |
| Scanner.UpEntry | mobile/net_scanner.py:83-87 | The entry carries the host's address, and `hostname` defaults to `[]`. |
| Scanner.UpOutcome | mobile/net_scanner.py:82-87 | A host adds its entry exactly when its state is 'up'. |
| Scanner.ParseNetworkScan | mobile/net_scanner.py:79-88 | The loop computes `UpHosts`. |
| Scanner.UpHostsExactly | mobile/net_scanner.py:79-88 | A host is listed exactly when its state is 'up'. |
| Scanner.UpHostsFailIff | mobile/net_scanner.py:82 | The sweep raises exactly when some host's state cannot be read. |
| Scanner.UpHostsConcat | mobile/net_scanner.py:81 | Hosts are listed in scan order. |
| Scanner.UpHostValues | mobile/net_scanner.py:83-87 | Every listed host has status "up". |
| Scanner.ScanEnvelope | mobile/net_scanner.py:25-34 | An nmap error or a parse error answers its text. Otherwise the raw result and the open ports are answered. |
| Scanner.ScanPorts | mobile/net_scanner.py:25-34 | Computes `ScanEnvelope` of nmap's answer. |
| Scanner.Connectivity | mobile/net_scanner.py:36-54 | An answer reports the host reachable. A `RequestException` reports it unreachable with the error text. Any other exception escapes. |
| Scanner.NetworkEnvelope | mobile/net_scanner.py:56-64 | An nmap error or a parse error answers its text. Otherwise the up hosts are answered. |
| Scanner.AnalyzeNetwork | mobile/net_scanner.py:56-64 | Computes `NetworkEnvelope` of nmap's answer. |
| Scanner.Execute | mobile/net_scanner.py:13-23 | An unknown operation answers `None`. A missing `host` or `subnet` answers its `KeyError` text. `ports` defaults to '1-1024'. An escaping probe exception becomes an error answer. |
| Optimizer.Attempt.ToValue | self_optimizer.py:84-94 | A record holds the item and "success" or "failed". |
| Optimizer.AttemptOf | self_optimizer.py:81-94 | An attempt is "success" exactly when applying the item did not raise. Otherwise it is "failed" with the error text. |
| Optimizer.Attempts | self_optimizer.py:80-94 | One attempt per plan item, in plan order. |
| Optimizer.AttemptsConcat | self_optimizer.py:80 | Applying a plan in two parts records the first part's attempts, then the second's. |
| Optimizer.CreateOptimizationPlan | self_optimizer.py:69-77 | The metric-specific branch is taken exactly when `target_metric` is truthy. Otherwise the general branch. |
| Optimizer.GenerateSuggestions | self_optimizer.py:96-99 | Always `[]`. |
| Optimizer.PerformanceEnvelope | self_optimizer.py:39-49 | Succeeds exactly when the metrics, the comparison and the bottleneck search all succeed. On success the analysis holds all three. |
| Optimizer.SuggestionsEnvelope | self_optimizer.py:51-57 | Readable metrics give an empty suggestion list. Otherwise the error. |
| Optimizer.PlanAttempts | self_optimizer.py:25-29 | The attempts of the whole plan once the metrics were read and the plan was built. Otherwise none. |
| Optimizer.OptimizeEnvelope | self_optimizer.py:25-37 | Succeeds exactly when both metric readings and plan building succeed. On success it answers the plan applied and the new metrics. |
| Optimizer.AttemptsRecordedDespiteLateFailure | self_optimizer.py:29-37 | A failure of the second reading still answers an error, after every item's attempt has been recorded. |
| Optimizer.SelfOptimizer.constructor | self_optimizer.py:7-11 | The history starts empty. |
| Optimizer.SelfOptimizer.ApplyOptimizations | self_optimizer.py:79-94 | Appends exactly one record per item, in plan order, after the unchanged earlier history. A failed item does not stop the rest. |
| Optimizer.SelfOptimizer.OptimizeSystem | self_optimizer.py:25-37 | The answer is `OptimizeEnvelope`. The history grows by `PlanAttempts`. |
| Optimizer.SelfOptimizer.Execute | self_optimizer.py:13-23 | An unknown operation answers `None` and leaves the history. 'optimize' uses `target_metric`, defaulting to `None`. The other two operations leave the history. |

## Left out

- ContextStore.ContextManager.LoadInitialState: the saved file is decoded
  into a typed record, so the model does not cover the files that
  `dict.update` accepts but the agent does not expect. Examples are a dict
  under `pending_inputs`, a non-list `short_term_memory`, and a top-level
  list of key/value pairs. In the source, a dict of pending inputs passes
  `_process_inputs` and the loop keeps running. A non-list memory makes
  `update` raise when it is pruned. A top-level file that is neither a dict
  nor a list of pairs makes `update` raise, and the error is only logged.
  The fault rule of `ExecuteCycle` and `Run` therefore covers list-valued
  pending inputs only.
- Skills.SkillEngine.constructor: the registry file is decoded as a dict,
  so a file holding another JSON value is not modelled. In the source such
  a registry makes `list_available_skills` raise. For a list registry,
  `execute_skill` answers `None` through the caught `TypeError` of
  indexing it with a name, and `register_skill` raises.
- Configs.SaveStep: the answered path is `config/` followed by the name and
  `.json`, by plain concatenation. pathlib's joining and normalisation are
  not modelled: an absolute name replaces the `config` directory, and `.`
  segments and repeated slashes are dropped. The same holds for
  `Configs.ConfigLoader.SaveConfig` and for the 'save' operation of
  `Configs.ConfigLoader.Execute`.
- I/O is not modelled: reading and writing files, JSON, YAML and `.env`
  text, directory globbing, `save_state`, and the registry, template and
  health-history files. The model takes what was read, or the error
  raised, as a parameter. Write failures that the source only logs are
  parameters that change nothing.
- psutil sampling (`_check_cpu`, `_check_memory`, `_check_disk`,
  `_check_network`, `_check_processes`) is not modelled. A health check is
  given the three percentages the rules use, with their printed text. The
  network and process sections of a check are not carried.
- The history file written by `_update_health_history` is not modelled. A
  loaded history that does not hold the expected keys is not modelled
  either: the history is typed.
- Health.Analyze: averages are exact real quotients. Python's float sum and
  division round, so only the bounds min ≤ avg ≤ max are claimed.
- nmap, `requests.get`, `markdown.markdown`, `json.dumps` and `json.loads`
  are abstract parameters. The nmap result is taken together with the host
  list its `scan` entry holds.
- `eval` in the type check of `_validate_against_schema` is an abstract,
  fallible `TypeCheck`.
- The order in which `_find_config_file` and `list_configs` visit extensions
  comes from iterating a set. That order is nondeterministic, so the file
  found and the list of stems are parameters.
- Wall-clock time (`time.time`, `time.sleep`, `datetime.now`) is an injected
  millisecond clock or an opaque timestamp. `Run` is bounded by the cycles
  the host supplies. The unbounded `while self.running` loop is therefore
  followed only for that many cycles.
- Logging is not modelled.
- The `vader` host object and the undefined optimizer helpers are not
  modelled. The helpers are `_collect_metrics`' `_get_*` calls,
  `_optimize_for_metric`, `_create_general_optimizations`,
  `_apply_single_optimization`, `_compare_with_history` and
  `_identify_bottlenecks`. All are abstract calls that return a value or
  raise.
- PyValues.Contains: Python's `in` is modelled with structural equality. The
  cross-type numeric equality `1 == 1.0 == True` is not modelled.
- `repr` of strings does not model Python's escaping of quotes, backslashes
  and unprintable characters. `strip` treats only ASCII white space as
  space.
- PyValues.StrIndex: the `TypeError` text for indexing a string with a string
  is the one current Python versions print. Older versions word it
  differently.
- `ReportGenerator.execute` (mobile/report_generator.py:15-29) is not part
  of this model. Its parameter defaults follow the same shape as the other
  dispatchers.
- data_analyzer.py, code_writer.py, file_manager.py, api_interface.py and
  advanced_commands.py are not part of this model. They wrap pandas/scipy,
  `ast`/`autopep8`, file-system calls, FastAPI, and calls into the unseen
  host.
