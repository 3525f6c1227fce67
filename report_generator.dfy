/** `ReportGenerator`: reports built by substituting `{key}` placeholders of
    a named template, formatted as text, Markdown, HTML, JSON or CSV, and
    saved. The templates are read once, when the generator is made; the
    HTML renderer, the JSON encoder and decoder and the file write are
    abstract. */
module Reports {
  import opened Wrappers
  import opened Dicts
  import opened Text
  import opened PyValues
  import opened Seqs

  /** The formats `generate_report` accepts, in its order. */
  function SupportedFormats(): seq<string> {
    ["txt", "md", "html", "json", "csv"]
  }

  function UnsupportedText(format: string): string {
    "Unsupported format: " + format
  }

  /** The longest content `preview_report` shows whole. */
  const PreviewLimit: nat := 1000

  /** `content[:1000] + "..." if len(content) > 1000 else content`. */
  function Preview(content: string): (r: string)
    ensures |content| <= PreviewLimit ==> r == content
    ensures |content| > PreviewLimit ==>
              |r| == PreviewLimit + 3 && r[..PreviewLimit] == content[..PreviewLimit] && r[PreviewLimit..] == "..."
    ensures |r| <= PreviewLimit + 3
  {
    if |content| > PreviewLimit then content[..PreviewLimit] + "..." else content
  }

  /** The placeholder a data key fills. */
  function Placeholder(key: string): (p: string)
    ensures p != [] && p[0] == '{'
  {
    "{" + key + "}"
  }

  /** The template text after substituting each data entry in order: every
      `{key}` becomes `str(value)`. */
  function Substituted(content: string, data: Dict<string, Value>): string
  {
    if data == [] then content
    else
      var (key, value) := data[|data| - 1];
      Replace(Substituted(content, data[..|data| - 1]), Placeholder(key), PyStr(value))
  }

  /** A template without any `{` comes out as it went in, whatever the data:
      every placeholder starts with `{`, so no `replace` finds one. */
  lemma {:induction false} SubstituteWithoutPlaceholders(content: string, data: Dict<string, Value>)
    requires '{' !in content
    ensures Substituted(content, data) == content
  {
    if data != [] {
      var (key, value) := data[|data| - 1];
      SubstituteWithoutPlaceholders(content, data[..|data| - 1]);
      ReplaceAbsent(content, Placeholder(key), PyStr(value));
    }
  }

  /** One key fills its placeholder: `a{key}b` with `a` and `b` free of `{`
      becomes `a` + `str(value)` + `b`. */
  lemma FillOnePlaceholder(a: string, key: string, b: string, value: Value)
    requires '{' !in a && '{' !in b
    ensures Substituted(a + Placeholder(key) + b, [(key, value)]) == a + PyStr(value) + b
  {
    var p := Placeholder(key);
    assert a + p + b == a + (p + b);
    assert [(key, value)][..0] == [];
    ReplaceSkips(a, p + b, p, PyStr(value));
    ReplaceHit(p, b, PyStr(value));
    ReplaceAbsent(b, p, PyStr(value));
  }

  // ----- CSV ---------------------------------------------------------------

  /** One CSV row's cells: `str(item.get(h, ''))` for each header. */
  function Cells(headers: seq<string>, fields: Dict<string, Value>): (cells: seq<string>)
    ensures |cells| == |headers|
    ensures forall j :: 0 <= j < |headers| && headers[j] in Keys(fields) ==>
              cells[j] == PyStr(Get(fields, headers[j]).value)
    ensures forall j :: 0 <= j < |headers| && headers[j] !in Keys(fields) ==> cells[j] == ""
  {
    seq(|headers|, j requires 0 <= j < |headers| => PyStr(GetOr(fields, headers[j], Str(""))))
  }

  function Row(headers: seq<string>, fields: Dict<string, Value>): string {
    Join(",", Cells(headers, fields))
  }

  /** Whether `item.get` can be called for every header: the row's
      generator calls it once per header, so with no headers it is never
      called and any item will do. */
  predicate Gettable(headers: seq<string>, item: Value) {
    headers == [] || item.Object?
  }

  /** `','.join(str(item.get(h, '')) for h in headers)` for an item whose
      `get` is called only if it exists. */
  function ItemRow(headers: seq<string>, item: Value): (row: string)
    requires Gettable(headers, item)
    ensures item.Object? ==> row == Row(headers, item.fields)
    ensures headers == [] ==> row == ""
  {
    if item.Object? then Row(headers, item.fields) else ""
  }

  /** One row per item, each under the same headers. */
  function Rows(headers: seq<string>, items: seq<Value>): (rows: seq<string>)
    requires forall i :: 0 <= i < |items| ==> Gettable(headers, items[i])
    ensures |rows| == |items|
    ensures forall i :: 0 <= i < |items| ==> rows[i] == ItemRow(headers, items[i])
  {
    seq(|items|, i requires 0 <= i < |items| => ItemRow(headers, items[i]))
  }

  /** The `str` of each value of a dict, in order. */
  function ValueTexts(fields: Dict<string, Value>): (texts: seq<string>)
    ensures |texts| == |fields|
    ensures forall i :: 0 <= i < |fields| ==> texts[i] == PyStr(fields[i].1)
  {
    seq(|fields|, i requires 0 <= i < |fields| => PyStr(fields[i].1))
  }

  /** The lines of a JSON list: when its first item is a dict, a header of
      that item's keys and one row per item, or `None` when the first item
      has keys and a later item is not a dict (`item.get` raises); no lines
      otherwise. */
  function ListLines(items: seq<Value>): (lines: Option<seq<string>>)
    ensures items == [] || !items[0].Object? ==> lines == Some([])
    ensures items != [] && items[0].Object? ==>
              var headers := Keys(items[0].fields);
              && (lines.None? <==> headers != [] && exists i :: 0 <= i < |items| && !items[i].Object?)
              && (lines.Some? ==> |lines.value| == |items| + 1 && lines.value[0] == Join(",", headers))
              && (lines.Some? ==> lines.value[1..] == Rows(headers, items))
  {
    if items != [] && items[0].Object? then
      var headers := Keys(items[0].fields);
      if forall i :: 0 <= i < |items| ==> Gettable(headers, items[i]) then
        Some([Join(",", headers)] + Rows(headers, items))
      else None
    else Some([])
  }

  /** A first item without keys gives an empty header and one empty row per
      item, whatever the later items are: no `get` is ever called. */
  lemma KeylessFirstItem(items: seq<Value>)
    requires items != [] && items[0] == Object([])
    ensures ListLines(items) == Some(seq(|items| + 1, _ => ""))
  {
    var lines := ListLines(items).value;
    assert Keys(items[0].fields) == [];
    forall k | 0 <= k < |lines| ensures lines[k] == "" {
      if k > 0 {
        assert lines[k] == lines[1..][k - 1];
      }
    }
    SameElements(lines, seq(|items| + 1, _ => ""));
  }

  /** The lines `_convert_to_csv` builds from decoded JSON, or `None` when
      it gives up and returns the content as it was: the content did not
      decode, or a list's first item has keys and a later item is not a
      dict. A dict gives its
      keys and then its values; anything but a dict or a list gives nothing. */
  function CsvLines(parsed: Option<Value>): (lines: Option<seq<string>>)
    ensures parsed.None? ==> lines.None?
    ensures parsed.Some? && parsed.value.Object? ==>
              lines == Some([Join(",", Keys(parsed.value.fields)), Join(",", ValueTexts(parsed.value.fields))])
    ensures parsed.Some? && parsed.value.List? ==> lines == ListLines(parsed.value.items)
    ensures parsed.Some? && !parsed.value.Object? && !parsed.value.List? ==> lines == Some([])
  {
    match parsed
    case None => None
    case Some(Object(fields)) => Some([Join(",", Keys(fields)), Join(",", ValueTexts(fields))])
    case Some(List(items)) => ListLines(items)
    case Some(_) => Some([])
  }

  /** `_convert_to_csv(content)`, given what `json.loads(content)` decodes. */
  function CsvOf(content: string, parsed: Option<Value>): (r: string)
    ensures parsed.None? ==> r == content
  {
    match CsvLines(parsed)
    case None => content
    case Some(lines) => Join("\n", lines)
  }

  /** `_convert_to_csv`, row by row. */
  method ConvertToCsv(content: string, parsed: Option<Value>) returns (r: string)
    ensures r == CsvOf(content, parsed)
  {
    if parsed.None? {
      return content;
    }
    var data := parsed.value;
    var output: seq<string> := [];
    if data.Object? {
      output := output + [Join(",", Keys(data.fields))];
      output := output + [Join(",", ValueTexts(data.fields))];
    } else if data.List? {
      var lines := ListRows(data.items);
      if lines.None? {
        return content;
      }
      output := lines.value;
    }
    return Join("\n", output);
  }

  /** The list branch of `_convert_to_csv`: the header row of the first
      item's keys, then one row per item, stopping at an item whose `get`
      is called but which is not a dict. */
  method ListRows(items: seq<Value>) returns (lines: Option<seq<string>>)
    ensures lines == ListLines(items)
  {
    if items == [] || !items[0].Object? {
      return Some([]);
    }
    var headers := Keys(items[0].fields);
    var output := [Join(",", headers)];
    for i := 0 to |items|
      invariant |output| == i + 1 && output[0] == Join(",", headers)
      invariant forall j :: 0 <= j < i ==> Gettable(headers, items[j]) && output[j + 1] == ItemRow(headers, items[j])
    {
      if headers != [] && !items[i].Object? {
        return None;
      }
      output := output + [ItemRow(headers, items[i])];
    }
    ghost var expected := ListLines(items).value;
    forall k | 0 <= k < |output| ensures output[k] == expected[k] {
      if k > 0 {
        assert expected[k] == expected[1..][k - 1];
      }
    }
    SameElements(output, expected);
    return Some(output);
  }

  /** Splitting a row on `,` gives back its cells when no cell holds `,`. */
  lemma RowSplits(headers: seq<string>, fields: Dict<string, Value>)
    requires headers != []
    requires forall j :: 0 <= j < |headers| ==> ',' !in Cells(headers, fields)[j]
    ensures Split(Row(headers, fields), ',') == Cells(headers, fields)
  {
    SplitJoin(Cells(headers, fields), ',');
  }

  /** Splitting a CSV text on line breaks gives back its lines when no line
      holds one. */
  lemma CsvSplitsIntoLines(content: string, parsed: Option<Value>)
    requires CsvLines(parsed).Some? && CsvLines(parsed).value != []
    requires forall i :: 0 <= i < |CsvLines(parsed).value| ==> '\n' !in CsvLines(parsed).value[i]
    ensures Split(CsvOf(content, parsed), '\n') == CsvLines(parsed).value
  {
    SplitJoin(CsvLines(parsed).value, '\n');
  }

  // ----- formatting --------------------------------------------------------

  /** The libraries `_format_content` and `_convert_to_csv` call:
      `markdown.markdown`, `json.dumps({"content": c}, indent=2)`, and
      `json.loads` (`None` when it raises). */
  datatype Codecs = Codecs(
    markdown: string -> string,
    dumpContent: string -> string,
    loadJson: string -> Option<Value>)

  /** `_format_content`. */
  function FormatContent(content: string, format: string, codecs: Codecs): (r: string)
    ensures format == "md" || format == "txt" ==> r == content
    ensures format == "html" ==> r == codecs.markdown(content)
    ensures format == "json" ==> r == codecs.dumpContent(content)
    ensures format == "csv" ==> r == CsvOf(content, codecs.loadJson(content))
    ensures format !in SupportedFormats() ==> r == content
  {
    if format == "md" then content
    else if format == "html" then codecs.markdown(content)
    else if format == "json" then codecs.dumpContent(content)
    else if format == "csv" then CsvOf(content, codecs.loadJson(content))
    else content
  }

  /** Writing a report: the path written for the content in a format, or
      the text of what the write raised. */
  type Save = (string, string) -> Result<string, string>

  class ReportGenerator {
    /** `report_templates`: template name to template text. */
    const reportTemplates: Dict<string, string>

    constructor(templates: Dict<string, string>)
      ensures reportTemplates == templates
    {
      reportTemplates := templates;
    }

    /** The template `_apply_template` uses: the one asked for if it exists,
        otherwise `'default'`. */
    function TemplateName(template: string): (name: string)
      ensures template in Keys(reportTemplates) ==> name == template
      ensures template !in Keys(reportTemplates) ==> name == "default"
    {
      if template in Keys(reportTemplates) then template else "default"
    }

    /** What `_apply_template` returns or raises: the chosen template with
        every entry of `data` substituted; a missing `'default'` raises a
        `KeyError`, and data that is not a dict has no `items`. */
    function TemplateOutcome(data: Value, template: string): (r: Result<string, string>)
      ensures r.Ok? <==> TemplateName(template) in Keys(reportTemplates) && data.Object?
      ensures TemplateName(template) !in Keys(reportTemplates) ==> r == Err(KeyErrorText("default"))
      ensures r.Ok? && data == Object([]) ==> r.value == Get(reportTemplates, TemplateName(template)).value
    {
      match Get(reportTemplates, TemplateName(template))
      case None => Err(KeyErrorText("default"))
      case Some(text) =>
        if !data.Object? then Err(NoAttributeText(TypeName(data), "items"))
        else Ok(Substituted(text, data.fields))
    }

    /** An unknown template name is answered as `'default'` would be. */
    lemma UnknownTemplateFallsBack(data: Value, template: string)
      requires template !in Keys(reportTemplates)
      ensures TemplateOutcome(data, template) == TemplateOutcome(data, "default")
    {
    }

    /** `_apply_template`: one `replace` per data entry, in order. */
    method ApplyTemplate(data: Value, template: string) returns (r: Result<string, string>)
      ensures r == TemplateOutcome(data, template)
    {
      var name := if template in Keys(reportTemplates) then template else "default";
      var found := Get(reportTemplates, name);
      if found.None? {
        return Err(KeyErrorText("default"));
      }
      if !data.Object? {
        return Err(NoAttributeText(TypeName(data), "items"));
      }
      var entries := data.fields;
      var content := found.value;
      for i := 0 to |entries|
        invariant content == Substituted(found.value, entries[..i])
      {
        assert entries[..i + 1][..i] == entries[..i];
        var (key, value) := entries[i];
        content := Replace(content, Placeholder(key), PyStr(value));
      }
      assert entries[..|entries|] == entries;
      return Ok(content);
    }

    /** `preview_report`: at most 1003 characters of the filled template. */
    method PreviewReport(data: Value, template: string) returns (r: Envelope)
      ensures TemplateOutcome(data, template).Err? ==> r == Error(TemplateOutcome(data, template).error)
      ensures TemplateOutcome(data, template).Ok? ==>
                r == Success([("preview", Str(Preview(TemplateOutcome(data, template).value)))])
    {
      var content := ApplyTemplate(data, template);
      match content {
        case Err(e) => return Error(e);
        case Ok(c) => return Success([("preview", Str(Preview(c)))]);
      }
    }

    /** `generate_report`: an unsupported format is refused before any
        template work; otherwise the filled template is formatted and saved,
        and the answer names the template asked for. */
    method GenerateReport(data: Value, format: string, template: string, codecs: Codecs, save: Save)
      returns (r: Envelope)
      ensures format !in SupportedFormats() ==> r == Error(UnsupportedText(format))
      ensures format in SupportedFormats() && TemplateOutcome(data, template).Err? ==>
                r == Error(TemplateOutcome(data, template).error)
      ensures format in SupportedFormats() && TemplateOutcome(data, template).Ok? ==>
                var saved := save(FormatContent(TemplateOutcome(data, template).value, format, codecs), format);
                && (saved.Err? ==> r == Error(saved.error))
                && (saved.Ok? ==> r == Success([("report_path", Str(saved.value)),
                                                ("format", Str(format)),
                                                ("template_used", Str(template))]))
    {
      if format !in SupportedFormats() {
        return Error(UnsupportedText(format));
      }
      var content := ApplyTemplate(data, template);
      if content.Err? {
        return Error(content.error);
      }
      var formatted := FormatContent(content.value, format, codecs);
      var saved := save(formatted, format);
      if saved.Err? {
        return Error(saved.error);
      }
      return Success([("report_path", Str(saved.value)), ("format", Str(format)), ("template_used", Str(template))]);
    }

    /** `list_templates`. */
    function ListTemplates(): (r: Envelope)
      ensures r.Success? && |r.payload| == 1 && r.payload[0].0 == "templates" && r.payload[0].1.List?
      ensures |r.payload[0].1.items| == |reportTemplates|
      ensures forall i :: 0 <= i < |reportTemplates| ==> r.payload[0].1.items[i] == Str(reportTemplates[i].0)
    {
      Success([("templates", List(Strs(Keys(reportTemplates))))])
    }
  }
}
