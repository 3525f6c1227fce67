/** `ConfigLoader`: named configurations read from `config/<name>.<ext>`,
    cached by name, saved as JSON, and validated against a schema. The
    file system is abstract: a lookup of a name is given as the
    `ConfigFile` it finds (or `None`), and a write as the error it raised
    (or `None`). */
module Configs {
  import opened Wrappers
  import opened Dicts
  import opened Text
  import opened PyValues
  import opened Outcomes
  import opened Seqs

  // ----- `.env` files ------------------------------------------------------

  /** What Python raises when `key, value = line.split('=', 1)` meets a line
      without `=`. */
  function UnpackErrorText(): string {
    "not enough values to unpack (expected 2, got 1)"
  }

  /** A line that strips to nothing or to a `#` comment sets nothing. */
  predicate IsSkipped(line: string) {
    var t := Strip(line);
    t == [] || t[0] == '#'
  }

  /** The settings a `.env` file's lines give, read in order: each setting
      line is split at its first `=`, key and value are stripped, and a later
      key overwrites an earlier one; the first line with no `=` is an error. */
  function EnvOf(lines: seq<string>): Result<Dict<string, Value>, string>
  {
    if lines == [] then Ok([])
    else
      match EnvOf(lines[..|lines| - 1])
      case Err(e) => Err(e)
      case Ok(config) =>
        var line := lines[|lines| - 1];
        if IsSkipped(line) then Ok(config)
        else
          match SplitFirst(Strip(line), '=')
          case None => Err(UnpackErrorText())
          case Some(kv) => Ok(Put(config, Strip(kv.0), Str(Strip(kv.1))))
  }

  /** `_parse_env_file`. */
  method ParseEnvFile(lines: seq<string>) returns (r: Result<Dict<string, Value>, string>)
    ensures r == EnvOf(lines)
  {
    var config: Dict<string, Value> := [];
    for i := 0 to |lines|
      invariant EnvOf(lines[..i]) == Ok(config)
    {
      PrefixSnoc(lines, i);
      EnvOfSnoc(lines[..i], lines[i]);
      var line := Strip(lines[i]);
      if line != [] && line[0] != '#' {
        match SplitFirst(line, '=')
        case None =>
          EnvErrorPersists(lines, i + 1);
          return Err(UnpackErrorText());
        case Some(kv) =>
          config := Put(config, Strip(kv.0), Str(Strip(kv.1)));
      }
    }
    assert lines[..|lines|] == lines;
    return Ok(config);
  }

  /** Reading stops at the first bad line: nothing after it matters. */
  lemma {:induction false} EnvErrorPersists(lines: seq<string>, n: nat)
    requires n <= |lines| && EnvOf(lines[..n]).Err?
    ensures EnvOf(lines) == EnvOf(lines[..n])
    decreases |lines| - n
  {
    if n < |lines| {
      var m := |lines| - 1;
      assert lines[..m][..n] == lines[..n];
      EnvErrorPersists(lines[..m], n);
      assert lines[..m] == lines[..|lines| - 1];
    } else {
      assert lines[..n] == lines;
    }
  }

  /** Blank and comment lines leave the settings as they were. */
  lemma EnvSkipsLine(lines: seq<string>, line: string)
    requires IsSkipped(line)
    ensures EnvOf(lines + [line]) == EnvOf(lines)
  {
    assert (lines + [line])[..|lines|] == lines;
  }

  /** A setting line `a=b` (split at its first `=`) binds the stripped `a` to
      the stripped `b`, overwriting any earlier binding, and leaves every
      other key as it was. */
  lemma EnvSettingWins(lines: seq<string>, line: string, a: string, b: string, other: string)
    requires EnvOf(lines).Ok? && !IsSkipped(line)
    requires Strip(line) == a + ['='] + b && '=' !in a
    ensures EnvOf(lines + [line]).Ok?
    ensures Get(EnvOf(lines + [line]).value, Strip(a)) == Some(Str(Strip(b)))
    ensures other != Strip(a) ==> Get(EnvOf(lines + [line]).value, other) == Get(EnvOf(lines).value, other)
  {
    var config := EnvOf(lines).value;
    EnvOfSnoc(lines, line);
    SplitFirstUnique(Strip(line), '=', a, b);
    var after := Put(config, Strip(a), Str(Strip(b)));
    assert EnvOf(lines + [line]) == Ok(after);
    PutGet(config, Strip(a), Str(Strip(b)), Strip(a));
    PutGet(config, Strip(a), Str(Strip(b)), other);
  }

  /** A non-comment line without `=` is an error, whatever came before. */
  lemma EnvLineWithoutEquals(lines: seq<string>, line: string)
    requires EnvOf(lines).Ok? && !IsSkipped(line) && '=' !in Strip(line)
    ensures EnvOf(lines + [line]) == Err(UnpackErrorText())
  {
    assert (lines + [line])[..|lines|] == lines;
  }

  /** A key and value `k=v` writes so that it reads back unchanged: the key
      is non-empty, holds no `=`, does not start a comment, and neither it
      nor the value has surrounding white space. */
  predicate EnvSafe(k: string, v: string) {
    && k != [] && !IsSpace(k[0]) && !IsSpace(k[|k| - 1]) && k[0] != '#' && '=' !in k
    && (v == [] || (!IsSpace(v[0]) && !IsSpace(v[|v| - 1])))
  }

  /** One `KEY=VALUE` line per entry. */
  function RenderEnv(entries: seq<(string, string)>): (lines: seq<string>)
    ensures |lines| == |entries|
  {
    if entries == [] then []
    else
      var last := entries[|entries| - 1];
      RenderEnv(entries[..|entries| - 1]) + [last.0 + "=" + last.1]
  }

  /** The settings a `.env` file denotes, with each value as a Python string. */
  function EnvSettings(entries: seq<(string, string)>): (d: Dict<string, Value>)
    ensures |d| == |entries|
    ensures forall i :: 0 <= i < |entries| ==> d[i] == (entries[i].0, Str(entries[i].1))
  {
    seq(|entries|, i requires 0 <= i < |entries| => (entries[i].0, Str(entries[i].1)))
  }

  /** A safe `k=v` line is a setting line that reads back as `k` and `v`. */
  lemma EnvSafeLine(k: string, v: string)
    requires EnvSafe(k, v)
    ensures !IsSkipped(k + "=" + v)
    ensures SplitFirst(Strip(k + "=" + v), '=') == Some((k, v))
    ensures Strip(k) == k && Strip(v) == v
  {
    var line := k + "=" + v;
    assert line == k + ['='] + v;
    assert line[0] == k[0];
    assert line[|line| - 1] == if v == [] then '=' else v[|v| - 1];
    StripUnchanged(line);
    SplitFirstUnique(line, '=', k, v);
    StripUnchanged(k);
    StripUnchanged(v);
  }

  /** The settings of distinct entries grow by writing the last one. */
  lemma EnvSettingsSnoc(entries: seq<(string, string)>)
    requires entries != [] && UniqueKeys(entries)
    ensures var n := |entries| - 1;
      EnvSettings(entries) == Put(EnvSettings(entries[..n]), entries[n].0, Str(entries[n].1))
  {
    var n := |entries| - 1;
    var before := EnvSettings(entries[..n]);
    var k := entries[n].0;
    assert k !in Keys(before) by {
      forall i | 0 <= i < n ensures Keys(before)[i] != k {
        assert Keys(before)[i] == before[i].0 == entries[i].0;
      }
    }
    PutAbsent(before, k, Str(entries[n].1));
    assert before + [(k, Str(entries[n].1))] == EnvSettings(entries);
  }

  /** One more line is read against the settings of the lines before it. */
  lemma EnvOfSnoc(lines: seq<string>, line: string)
    ensures EnvOf(lines + [line]) ==
            match EnvOf(lines)
            case Err(e) => Err(e)
            case Ok(config) =>
              if IsSkipped(line) then Ok(config)
              else
                match SplitFirst(Strip(line), '=')
                case None => Err(UnpackErrorText())
                case Some(kv) => Ok(Put(config, Strip(kv.0), Str(Strip(kv.1))))
  {
    assert (lines + [line])[..|lines|] == lines;
  }

  /** The last entry of safe, distinct entries is read back on top of the
      earlier ones. */
  lemma EnvRoundTripStep(entries: seq<(string, string)>)
    requires entries != [] && UniqueKeys(entries)
    requires EnvSafe(entries[|entries| - 1].0, entries[|entries| - 1].1)
    requires EnvOf(RenderEnv(entries[..|entries| - 1])) == Ok(EnvSettings(entries[..|entries| - 1]))
    ensures EnvOf(RenderEnv(entries)) == Ok(EnvSettings(entries))
  {
    var n := |entries| - 1;
    var (k, v) := entries[n];
    var line := k + "=" + v;
    assert RenderEnv(entries) == RenderEnv(entries[..n]) + [line];
    EnvOfSnoc(RenderEnv(entries[..n]), line);
    EnvSafeLine(k, v);
    EnvSettingsSnoc(entries);
  }

  /** Round trip: parsing the rendered lines of distinct, safe entries gives
      back exactly those entries, in order. */
  lemma {:induction false} EnvRoundTrip(entries: seq<(string, string)>)
    requires UniqueKeys(entries)
    requires forall i :: 0 <= i < |entries| ==> EnvSafe(entries[i].0, entries[i].1)
    ensures EnvOf(RenderEnv(entries)) == Ok(EnvSettings(entries))
  {
    if entries != [] {
      var n := |entries| - 1;
      var init := entries[..n];
      UniqueKeysPrefix(entries, n);
      assert forall i :: 0 <= i < |init| ==> init[i] == entries[i];
      EnvRoundTrip(init);
      EnvRoundTripStep(entries);
    }
  }

  // ----- schema validation -----------------------------------------------

  /** `eval(t)` followed by `isinstance(value, ...)`: whether `value` has the
      type the schema names, or the error evaluating the name raised. */
  type TypeCheck = (Value, Value) -> Result<bool, string>

  function MissingText(key: string): string { "Missing required field: " + key }
  function InvalidTypeText(key: string): string { "Invalid type for " + key }
  function InvalidValueText(key: string): string { "Invalid value for " + key }

  /** `requirements.get('required', False)`, as a condition. */
  predicate Required(requirements: Dict<string, Value>) {
    Truthy(GetOr(requirements, "required", Bool(false)))
  }

  /** The type rule of one present key. */
  function TypeErrors(value: Value, key: string, requirements: Dict<string, Value>, typeCheck: TypeCheck)
    : (r: Result<seq<string>, string>)
    ensures "type" !in Keys(requirements) ==> r == Ok([])
    ensures r.Ok? ==> |r.value| <= 1
    ensures "type" in Keys(requirements) ==>
              var check := typeCheck(value, Get(requirements, "type").value);
              && (check.Err? ==> r == Err(check.error))
              && (check.Ok? ==> r == Ok(if check.value then [] else [InvalidTypeText(key)]))
  {
    match Get(requirements, "type")
    case None => Ok([])
    case Some(t) =>
      match typeCheck(value, t)
      case Err(e) => Err(e)
      case Ok(isInstance) => Ok(if isInstance then [] else [InvalidTypeText(key)])
  }

  /** The allowed-values rule of one present key. */
  function ValueErrors(value: Value, key: string, requirements: Dict<string, Value>)
    : (r: Result<seq<string>, string>)
    ensures "values" !in Keys(requirements) ==> r == Ok([])
    ensures r.Ok? ==> |r.value| <= 1
    ensures "values" in Keys(requirements) ==>
              var found := Contains(Get(requirements, "values").value, value);
              && (found.Err? ==> r == Err(found.error))
              && (found.Ok? ==> r == Ok(if found.value then [] else [InvalidValueText(key)]))
  {
    match Get(requirements, "values")
    case None => Ok([])
    case Some(allowed) =>
      match Contains(allowed, value)
      case Err(e) => Err(e)
      case Ok(found) => Ok(if found then [] else [InvalidValueText(key)])
  }

  /** Whether a schema entry carries a rule that reads `data[key]`. */
  predicate HasValueRule(requirements: Dict<string, Value>) {
    "type" in Keys(requirements) || "values" in Keys(requirements)
  }

  /** The errors one schema entry adds, or what checking it raised. `data[key]`
      is read only by the `type` and `values` rules, so an entry without them
      never indexes `data`, whatever its type. */
  function KeyErrors(data: Value, key: string, requirements: Value, typeCheck: TypeCheck)
    : (r: Result<seq<string>, string>)
    ensures !requirements.Object? ==> r == Err(NoAttributeText(TypeName(requirements), "get"))
    ensures requirements.Object? && Contains(data, Str(key)).Err? ==> r == Err(Contains(data, Str(key)).error)
    ensures requirements.Object? && Contains(data, Str(key)) == Ok(false) ==>
              r == Ok(if Required(requirements.fields) then [MissingText(key)] else [])
    ensures requirements.Object? && Contains(data, Str(key)) == Ok(true) && !HasValueRule(requirements.fields) ==>
              r == Ok([])
    ensures requirements.Object? && Contains(data, Str(key)) == Ok(true) && HasValueRule(requirements.fields) && !data.Object? ==>
              r == Err(StrIndex(data, key).error)
    ensures requirements.Object? && data.Object? && key in Keys(data.fields) ==>
              var v := Get(data.fields, key).value;
              var te := TypeErrors(v, key, requirements.fields, typeCheck);
              var ve := ValueErrors(v, key, requirements.fields);
              && (r.Ok? <==> te.Ok? && ve.Ok?)
              && (r.Ok? ==> r.value == te.value + ve.value)
    ensures r.Ok? ==> |r.value| <= 2
  {
    if !requirements.Object? then Err(NoAttributeText(TypeName(requirements), "get"))
    else
      match Contains(data, Str(key))
      case Err(e) => Err(e)
      case Ok(present) =>
        if !present then Ok(if Required(requirements.fields) then [MissingText(key)] else [])
        else if !HasValueRule(requirements.fields) then Ok([])
        else
          match StrIndex(data, key)
          case Err(e) => Err(e)
          case Ok(v) =>
            match TypeErrors(v, key, requirements.fields, typeCheck)
            case Err(e) => Err(e)
            case Ok(te) =>
              match ValueErrors(v, key, requirements.fields)
              case Err(e) => Err(e)
              case Ok(ve) => Ok(te + ve)
  }

  /** The outcome of checking each schema entry on its own. */
  function EntryOutcomes(data: Value, entries: Dict<string, Value>, typeCheck: TypeCheck)
    : (outcomes: seq<Result<seq<string>, string>>)
    ensures |outcomes| == |entries|
    ensures forall i :: 0 <= i < |entries| ==>
              outcomes[i] == KeyErrors(data, entries[i].0, entries[i].1, typeCheck)
  {
    seq(|entries|, i requires 0 <= i < |entries| => KeyErrors(data, entries[i].0, entries[i].1, typeCheck))
  }

  /** The errors of a schema's entries, in the schema's order, or the first
      thing checking them raised. */
  function SchemaErrors(data: Value, entries: Dict<string, Value>, typeCheck: TypeCheck)
    : Result<seq<string>, string>
  {
    Collect(EntryOutcomes(data, entries, typeCheck))
  }

  /** `_validate_against_schema`'s error list, or what it raised (a schema
      that is not a dict has no `items`). */
  function Validation(data: Value, schema: Value, typeCheck: TypeCheck): (r: Result<seq<string>, string>)
    ensures !schema.Object? ==> r == Err(NoAttributeText(TypeName(schema), "items"))
    ensures schema.Object? ==> r == SchemaErrors(data, schema.fields, typeCheck)
  {
    if !schema.Object? then Err(NoAttributeText(TypeName(schema), "items"))
    else SchemaErrors(data, schema.fields, typeCheck)
  }

  /** `_validate_against_schema`. */
  method ValidateAgainstSchema(data: Value, schema: Value, typeCheck: TypeCheck)
    returns (r: Result<seq<string>, string>)
    ensures r == Validation(data, schema, typeCheck)
  {
    if !schema.Object? {
      return Err(NoAttributeText(TypeName(schema), "items"));
    }
    var entries := schema.fields;
    ghost var outcomes := EntryOutcomes(data, entries, typeCheck);
    var errors: seq<string> := [];
    for i := 0 to |entries|
      invariant Collect(outcomes[..i]) == Ok(errors)
    {
      var (key, requirements) := entries[i];
      assert outcomes[i] == KeyErrors(data, key, requirements, typeCheck);
      var more := KeyErrors(data, key, requirements, typeCheck);
      if more.Err? {
        CollectStops(outcomes, i);
        return Err(more.error);
      }
      CollectStep(outcomes, i, errors);
      errors := errors + more.value;
    }
    CollectWhole(outcomes, errors);
    return Ok(errors);
  }

  /** Errors come in schema order: the errors of a schema split in two are
      the first part's followed by the second part's. */
  lemma SchemaErrorsConcat(data: Value, xs: Dict<string, Value>, ys: Dict<string, Value>, typeCheck: TypeCheck)
    requires SchemaErrors(data, xs, typeCheck).Ok? && SchemaErrors(data, ys, typeCheck).Ok?
    ensures SchemaErrors(data, xs + ys, typeCheck) ==
            Ok(SchemaErrors(data, xs, typeCheck).value + SchemaErrors(data, ys, typeCheck).value)
  {
    EntryOutcomesConcat(data, xs, ys, typeCheck);
    CollectConcat(EntryOutcomes(data, xs, typeCheck), EntryOutcomes(data, ys, typeCheck));
  }

  lemma EntryOutcomesConcat(data: Value, xs: Dict<string, Value>, ys: Dict<string, Value>, typeCheck: TypeCheck)
    ensures EntryOutcomes(data, xs + ys, typeCheck) ==
            EntryOutcomes(data, xs, typeCheck) + EntryOutcomes(data, ys, typeCheck)
  {
  }

  /** A schema finds no error exactly when none of its entries does. */
  lemma NoErrorsIffEveryEntryPasses(data: Value, entries: Dict<string, Value>, typeCheck: TypeCheck)
    ensures SchemaErrors(data, entries, typeCheck) == Ok([]) <==>
            forall i :: 0 <= i < |entries| ==> KeyErrors(data, entries[i].0, entries[i].1, typeCheck) == Ok([])
  {
    CollectEmptyIff(EntryOutcomes(data, entries, typeCheck));
  }

  /** A required key missing from a dict of settings is reported by name. */
  lemma MissingRequiredReported(data: Value, entries: Dict<string, Value>, typeCheck: TypeCheck, i: nat)
    requires i < |entries| && SchemaErrors(data, entries, typeCheck).Ok?
    requires data.Object? && entries[i].0 !in Keys(data.fields)
    requires entries[i].1.Object? && Required(entries[i].1.fields)
    ensures MissingText(entries[i].0) in SchemaErrors(data, entries, typeCheck).value
  {
    CollectReports(EntryOutcomes(data, entries, typeCheck), i);
  }

  // ----- the loader ------------------------------------------------------

  /** What the lookup of a name finds on disk. */
  datatype ConfigFile =
    | Unreadable(error: string)       // opening or parsing it raised
    | Structured(data: Value)         // a `.json`, `.yaml` or `.yml` file, parsed
    | EnvFile(lines: seq<string>)     // a `.env` file, line by line

  /** `_read_config_file`. */
  function ReadConfigFile(f: ConfigFile): (r: Result<Value, string>)
    ensures f.EnvFile? ==> (r.Ok? <==> EnvOf(f.lines).Ok?)
    ensures f.EnvFile? && r.Ok? ==> r.value == Object(EnvOf(f.lines).value)
  {
    match f
    case Unreadable(e) => Err(e)
    case Structured(data) => Ok(data)
    case EnvFile(lines) =>
      match EnvOf(lines)
      case Err(e) => Err(e)
      case Ok(config) => Ok(Object(config))
  }

  type Cache = map<Value, Value>

  function NotFoundText(name: Value): string {
    "Config '" + PyStr(name) + "' not found"
  }

  /** Where `save_config` writes `name`: `Path('config') / f"{name}.json"`
      for a relative name free of `.` segments and repeated slashes, where
      pathlib's joining adds nothing to plain concatenation. */
  function ConfigPath(name: Value): string {
    "config/" + PyStr(name) + ".json"
  }

  /** `load_config`: the answer and the cache afterwards. A cached name is
      served without looking at `found`; otherwise a successful read is
      cached, and every failure leaves the cache as it was. */
  function LoadStep(cache: Cache, name: Value, found: Option<ConfigFile>): (out: (Envelope, Cache))
    ensures !Hashable(name) ==> out == (Error(UnhashableText(name)), cache)
    ensures Hashable(name) && name in cache ==> out == (Success([("config", cache[name])]), cache)
    ensures Hashable(name) && name !in cache && found.None? ==> out == (Error(NotFoundText(name)), cache)
    ensures out.0.Success? <==>
              Hashable(name) && (name in cache || (found.Some? && ReadConfigFile(found.value).Ok?))
    ensures out.0.Success? ==> name in out.1 && out.0 == Success([("config", out.1[name])])
    ensures out.0.Success? ==> out.1 == cache[name := out.1[name]]
    ensures out.0.Success? && name !in cache ==> out.1[name] == ReadConfigFile(found.value).value
    ensures out.0.Error? ==> out.1 == cache
  {
    if !Hashable(name) then (Error(UnhashableText(name)), cache)
    else if name in cache then (Success([("config", cache[name])]), cache)
    else
      match found
      case None => (Error(NotFoundText(name)), cache)
      case Some(f) =>
        match ReadConfigFile(f)
        case Err(e) => (Error(e), cache)
        case Ok(data) => (Success([("config", data)]), cache[name := data])
  }

  /** `save_config`: on a write that did not raise, the path written and the
      data cached under `name`; the cache changes only then. */
  function SaveStep(cache: Cache, name: Value, data: Value, writeError: Option<string>): (out: (Envelope, Cache))
    ensures writeError.Some? ==> out == (Error(writeError.value), cache)
    ensures out.0.Success? <==> writeError.None? && Hashable(name)
    ensures out.0.Success? ==> out.0 == Success([("path", Str(ConfigPath(name)))]) && out.1 == cache[name := data]
    ensures out.0.Error? ==> out.1 == cache
  {
    match writeError
    case Some(e) => (Error(e), cache)
    case None =>
      if !Hashable(name) then (Error(UnhashableText(name)), cache)
      else (Success([("path", Str(ConfigPath(name)))]), cache[name := data])
  }

  /** After a successful save, loading the name returns the saved data
      without any file lookup. */
  lemma SaveThenLoad(cache: Cache, name: Value, data: Value, found: Option<ConfigFile>)
    requires SaveStep(cache, name, data, None).0.Success?
    ensures LoadStep(SaveStep(cache, name, data, None).1, name, found).0 == Success([("config", data)])
  {
  }

  /** A successful load is cached: loading the same name again gives the
      same answer, whatever the disk holds by then, and changes nothing. */
  lemma LoadIsCached(cache: Cache, name: Value, found: Option<ConfigFile>, later: Option<ConfigFile>)
    requires LoadStep(cache, name, found).0.Success?
    ensures LoadStep(LoadStep(cache, name, found).1, name, later) == LoadStep(cache, name, found)
  {
  }

  /** The `validate_config` answer for a loaded configuration. */
  function ValidationEnvelope(result: Result<seq<string>, string>): (r: Envelope)
    ensures result.Err? ==> r == Error(result.error)
    ensures result.Ok? ==> r.Success? && |r.payload| == 2
    ensures result.Ok? ==> r.payload[0] == ("valid", Bool(result.value == []))
    ensures result.Ok? ==> r.payload[1] == ("errors", List(Strs(result.value)))
  {
    match result
    case Err(e) => Error(e)
    case Ok(errors) => Success([("valid", Bool(errors == [])), ("errors", List(Strs(errors)))])
  }

  /** `validate_config`: a failed load is answered as it is; a loaded
      configuration is validated, and `valid` holds exactly when no error
      was found. Loading caches as `load_config` does. */
  function ValidateStep(cache: Cache, name: Value, schema: Value, found: Option<ConfigFile>, typeCheck: TypeCheck)
    : (out: (Envelope, Cache))
    ensures out.1 == LoadStep(cache, name, found).1
    ensures LoadStep(cache, name, found).0.Error? ==> out.0 == LoadStep(cache, name, found).0
    ensures LoadStep(cache, name, found).0.Success? ==>
              out.0 == ValidationEnvelope(Validation(LoadStep(cache, name, found).0.payload[0].1, schema, typeCheck))
  {
    var (loaded, cache') := LoadStep(cache, name, found);
    match loaded
    case Error(_) => (loaded, cache')
    case Success(payload) => (ValidationEnvelope(Validation(payload[0].1, schema, typeCheck)), cache')
  }

  /** The operation an `execute` call asks for, once its parameters are read. */
  datatype Request =
    | LoadRequest(name: Value)
    | SaveRequest(name: Value, data: Value)
    | ListRequest
    | ValidateRequest(name: Value, schema: Value)

  /** `execute`'s dispatch: `None` for an unknown operation (it falls through),
      the `KeyError` text of the first missing parameter, or the request. */
  function ParseRequest(operation: string, params: Dict<string, Value>): (r: Option<Result<Request, string>>)
    ensures operation != "load" && operation != "save" && operation != "list" && operation != "validate" ==> r.None?
    ensures operation == "list" ==> r == Some(Ok(ListRequest))
    ensures operation == "load" || operation == "save" || operation == "validate" ==>
              r.Some? && ("name" !in Keys(params) ==> r.value == Err(KeyErrorText("name")))
    ensures operation == "load" && "name" in Keys(params) ==>
              r == Some(Ok(LoadRequest(Get(params, "name").value)))
    ensures operation == "save" && "name" in Keys(params) ==>
              r == Some(if "data" in Keys(params) then Ok(SaveRequest(Get(params, "name").value, Get(params, "data").value))
                        else Err(KeyErrorText("data")))
    ensures operation == "validate" && "name" in Keys(params) ==>
              r == Some(if "schema" in Keys(params) then Ok(ValidateRequest(Get(params, "name").value, Get(params, "schema").value))
                        else Err(KeyErrorText("schema")))
  {
    if operation == "load" then
      Some(match Subscript(params, "name")
           case Err(e) => Err(e)
           case Ok(name) => Ok(LoadRequest(name)))
    else if operation == "save" then
      Some(match Subscript(params, "name")
           case Err(e) => Err(e)
           case Ok(name) =>
             match Subscript(params, "data")
             case Err(e) => Err(e)
             case Ok(data) => Ok(SaveRequest(name, data)))
    else if operation == "list" then Some(Ok(ListRequest))
    else if operation == "validate" then
      Some(match Subscript(params, "name")
           case Err(e) => Err(e)
           case Ok(name) =>
             match Subscript(params, "schema")
             case Err(e) => Err(e)
             case Ok(schema) => Ok(ValidateRequest(name, schema)))
    else None
  }

  /** What the disk answers during one `execute` call: the lookup of the
      requested name, the outcome of a write, and the stems `list` finds. */
  datatype Disk = Disk(found: Option<ConfigFile>, writeError: Option<string>, stems: seq<string>)

  class ConfigLoader {
    /** `cached_configs`. */
    var cachedConfigs: Cache

    constructor()
      ensures cachedConfigs == map[]
    {
      cachedConfigs := map[];
    }

    /** `load_config`. */
    method LoadConfig(name: Value, found: Option<ConfigFile>) returns (r: Envelope)
      modifies this
      ensures (r, cachedConfigs) == LoadStep(old(cachedConfigs), name, found)
    {
      if !Hashable(name) {
        return Error(UnhashableText(name));
      }
      if name in cachedConfigs {
        return Success([("config", cachedConfigs[name])]);
      }
      if found.None? {
        return Error(NotFoundText(name));
      }
      var data: Value;
      match found.value {
        case Unreadable(e) => return Error(e);
        case Structured(v) => data := v;
        case EnvFile(lines) =>
          var parsed := ParseEnvFile(lines);
          if parsed.Err? {
            return Error(parsed.error);
          }
          data := Object(parsed.value);
      }
      cachedConfigs := cachedConfigs[name := data];
      return Success([("config", data)]);
    }

    /** `save_config`: the file is written first, then the cache. */
    method SaveConfig(name: Value, data: Value, writeError: Option<string>) returns (r: Envelope)
      modifies this
      ensures (r, cachedConfigs) == SaveStep(old(cachedConfigs), name, data, writeError)
    {
      if writeError.Some? {
        return Error(writeError.value);
      }
      if !Hashable(name) {
        return Error(UnhashableText(name));
      }
      cachedConfigs := cachedConfigs[name := data];
      return Success([("path", Str(ConfigPath(name)))]);
    }

    /** `list_configs`: the stems of the configuration files on disk. */
    method ListConfigs(stems: seq<string>) returns (r: Envelope)
      ensures r.Success? && r.payload == [("configs", List(Strs(stems)))]
    {
      return Success([("configs", List(Strs(stems)))]);
    }

    /** `validate_config`. */
    method ValidateConfig(name: Value, schema: Value, found: Option<ConfigFile>, typeCheck: TypeCheck)
      returns (r: Envelope)
      modifies this
      ensures (r, cachedConfigs) == ValidateStep(old(cachedConfigs), name, schema, found, typeCheck)
    {
      var loaded := LoadConfig(name, found);
      if loaded.Error? {
        return loaded;
      }
      var result := ValidateAgainstSchema(loaded.payload[0].1, schema, typeCheck);
      return ValidationEnvelope(result);
    }

    /** `execute`: unknown operations answer `None`, a missing parameter an
      error envelope, and the rest the operation's own answer. */
    method Execute(operation: string, params: Dict<string, Value>, disk: Disk, typeCheck: TypeCheck)
      returns (r: Option<Envelope>)
      modifies this
      ensures ParseRequest(operation, params).None? ==> r.None? && cachedConfigs == old(cachedConfigs)
      ensures ParseRequest(operation, params).Some? && ParseRequest(operation, params).value.Err? ==>
                r == Some(Error(ParseRequest(operation, params).value.error)) && cachedConfigs == old(cachedConfigs)
      ensures ParseRequest(operation, params).Some? && ParseRequest(operation, params).value.Ok? ==>
                r.Some? &&
                match ParseRequest(operation, params).value.value
                case LoadRequest(name) => (r.value, cachedConfigs) == LoadStep(old(cachedConfigs), name, disk.found)
                case SaveRequest(name, data) =>
                  (r.value, cachedConfigs) == SaveStep(old(cachedConfigs), name, data, disk.writeError)
                case ListRequest =>
                  r.value == Success([("configs", List(Strs(disk.stems)))]) && cachedConfigs == old(cachedConfigs)
                case ValidateRequest(name, schema) =>
                  (r.value, cachedConfigs) == ValidateStep(old(cachedConfigs), name, schema, disk.found, typeCheck)
    {
      match ParseRequest(operation, params) {
        case None =>
          return None;
        case Some(Err(e)) =>
          return Some(Error(e));
        case Some(Ok(request)) =>
          var answer: Envelope;
          match request {
            case LoadRequest(name) =>
              answer := LoadConfig(name, disk.found);
            case SaveRequest(name, data) =>
              answer := SaveConfig(name, data, disk.writeError);
            case ListRequest =>
              answer := ListConfigs(disk.stems);
            case ValidateRequest(name, schema) =>
              answer := ValidateConfig(name, schema, disk.found, typeCheck);
          }
          return Some(answer);
      }
    }
  }
}
