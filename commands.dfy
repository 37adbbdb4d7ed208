/**
 * The CLI commands of src/cli/commands.rs that hold logic of their own: reading a batch and
 * running it step by step, reading the params of `op`, parsing `KEY=VALUE` properties, the
 * "exactly one of" rules for flags and clip selectors, the params built for the marker,
 * timeline-set and clip commands, and `ops list`. Argument parsing itself (clap), printing and
 * reading files or stdin are outside the model: their outcomes are parameters.
 */
module Commands {
  import opened Wrappers
  import opened JsonValue
  import opened Text
  import Bridge
  import Operations

  // ---------------------------------------------------------------------------------------------
  // Batch input
  // ---------------------------------------------------------------------------------------------

  /** One step of a batch. */
  datatype BatchOperation = BatchOperation(op: string, params: Json)

  /**
   * Deserialising a `BatchOperation`. The object form needs a string `op`; a missing `params` is
   * JSON `null` (`Value::default()`), not `{}`, and other fields are ignored. The derived
   * deserialiser also takes the sequence form `["op"]` or `["op", params]`: the fields in
   * declaration order, the defaulted one optional, and no further elements.
   */
  function DecodeBatchOperation(v: Json): (r: Option<BatchOperation>)
    ensures v.JObj? ==> (r.Some? <==> Get(v, "op").Some? && Get(v, "op").value.JStr?)
    ensures v.JObj? && r.Some? ==> r.value.op == Get(v, "op").value.s && r.value.params == GetOrDefault(v, "params", JNull)
    ensures v.JArr? ==> (r.Some? <==> 1 <= |v.items| <= 2 && v.items[0].JStr?)
    ensures v.JArr? && r.Some? ==> r.value.op == v.items[0].s && r.value.params == (if |v.items| == 2 then v.items[1] else JNull)
    ensures !v.JObj? && !v.JArr? ==> r.None?
  {
    match v
    case JObj(_) =>
      (match Get(v, "op")
       case Some(JStr(op)) => Some(BatchOperation(op, GetOrDefault(v, "params", JNull)))
       case _ => None)
    case JArr(items) =>
      if 1 <= |items| <= 2 && items[0].JStr? then
        Some(BatchOperation(items[0].s, if |items| == 2 then items[1] else JNull))
      else None
    case _ => None
  }

  /** Deserialising a `Vec<BatchOperation>`: every element must decode. */
  function DecodeBatchOperations(items: seq<Json>): (r: Option<seq<BatchOperation>>)
    ensures r.Some? <==> forall i :: 0 <= i < |items| ==> DecodeBatchOperation(items[i]).Some?
    ensures r.Some? ==> |r.value| == |items|
    ensures r.Some? ==> forall i :: 0 <= i < |items| ==> r.value[i] == DecodeBatchOperation(items[i]).value
  {
    if forall i :: 0 <= i < |items| ==> DecodeBatchOperation(items[i]).Some? then
      Some(seq(|items|, i requires 0 <= i < |items| => DecodeBatchOperation(items[i]).value))
    else None
  }

  const BatchShapeError := "Batch JSON must be an array or {\"operations\": [...]} object"

  /** The shape dispatch of `parse_batch_input` on the parsed JSON. */
  function DecodeBatchValue(value: Json): (r: Result<seq<BatchOperation>, string>)
    ensures value.JArr? ==> (r.Ok? <==> DecodeBatchOperations(value.items).Some?)
    ensures value.JArr? && r.Ok? ==> r.value == DecodeBatchOperations(value.items).value
    ensures value.JArr? && r.Err? ==> r.error == "Failed to parse batch array"
    ensures !value.JArr? && Get(value, "operations").None? ==> r == Err(BatchShapeError)
    ensures !value.JArr? && Get(value, "operations").Some? && r.Err? ==> r.error == "Failed to parse batch wrapper"
  {
    if value.JArr? then
      if DecodeBatchOperations(value.items).Some? then Ok(DecodeBatchOperations(value.items).value)
      else Err("Failed to parse batch array")
    else if Get(value, "operations").None? then Err(BatchShapeError)
    else
      var operations := Get(value, "operations").value;
      if operations.JArr? && DecodeBatchOperations(operations.items).Some? then Ok(DecodeBatchOperations(operations.items).value)
      else Err("Failed to parse batch wrapper")
  }

  /**
   * The array form and the `{"operations": [...]}` wrapper (with any other fields) give the same
   * steps in the same order, and one is accepted exactly when the other is.
   */
  lemma WrapperSameAsArray(items: seq<Json>, wrapper: Json)
    requires wrapper.JObj? && "operations" in wrapper.fields && wrapper.fields["operations"] == JArr(items)
    ensures DecodeBatchValue(wrapper).Ok? <==> DecodeBatchValue(JArr(items)).Ok?
    ensures DecodeBatchValue(wrapper).Ok? ==> DecodeBatchValue(wrapper).value == DecodeBatchValue(JArr(items)).value
  {
    assert Get(wrapper, "operations") == Some(JArr(items));
    assert !wrapper.JArr?;
    match DecodeBatchOperations(items)
    case None =>
      assert DecodeBatchValue(wrapper) == Err("Failed to parse batch wrapper");
    case Some(ops) =>
      assert DecodeBatchValue(wrapper) == Ok(ops);
      assert DecodeBatchValue(JArr(items)) == Ok(ops);
  }

  /** A step written without `params` carries JSON `null`. */
  lemma MissingParamsIsNull(op: string)
    ensures DecodeBatchValue(JArr([JObj(map["op" := JStr(op)])])) == Ok([BatchOperation(op, JNull)])
  {
    var one := JObj(map["op" := JStr(op)]);
    assert DecodeBatchOperation(one) == Some(BatchOperation(op, JNull));
    assert [one][0] == one;
    var decoded := DecodeBatchOperations([one]);
    assert decoded.Some?;
    assert decoded.value == [BatchOperation(op, JNull)];
  }

  /** A step may also be written as the array `[op, params]`, and `[op]` carries JSON `null`. */
  lemma ArrayFormStep(op: string, params: Json)
    ensures DecodeBatchValue(JArr([JArr([JStr(op), params]), JArr([JStr(op)])]))
            == Ok([BatchOperation(op, params), BatchOperation(op, JNull)])
  {
    var long, short := JArr([JStr(op), params]), JArr([JStr(op)]);
    assert DecodeBatchOperation(long) == Some(BatchOperation(op, params));
    assert DecodeBatchOperation(short) == Some(BatchOperation(op, JNull));
    var decoded := DecodeBatchOperations([long, short]);
    assert decoded.Some?;
    assert decoded.value == [BatchOperation(op, params), BatchOperation(op, JNull)];
  }

  /**
   * The batch text: exactly one of `--file` and `--stdin`; `readFile` stands for reading the
   * named file (`None` when it cannot be read) and `stdinText` for reading stdin.
   */
  function BatchText(file: Option<string>, stdin: bool, readFile: string -> Option<string>,
                     stdinText: Result<string, string>): (r: Result<string, string>)
    ensures file.Some? && stdin ==> r == Err("Use only one of --file or --stdin")
    ensures file.None? && !stdin ==> r == Err("Provide --file or --stdin for batch input")
    ensures file.Some? && !stdin ==> r == if readFile(file.value).Some? then Ok(readFile(file.value).value)
                                          else Err("Failed to read file: " + file.value)
    ensures file.None? && stdin ==> r == stdinText
  {
    if file.Some? && stdin then Err("Use only one of --file or --stdin")
    else if file.Some? then
      (match readFile(file.value)
       case None => Err("Failed to read file: " + file.value)
       case Some(text) => Ok(text))
    else if stdin then stdinText
    else Err("Provide --file or --stdin for batch input")
  }

  /** `parse_batch_input`: the batch text, parsed as JSON (`parseJson`), then decoded by shape. */
  function ParseBatchInput(file: Option<string>, stdin: bool, readFile: string -> Option<string>,
                           stdinText: Result<string, string>, parseJson: string -> Option<Json>): (r: Result<seq<BatchOperation>, string>)
    ensures BatchText(file, stdin, readFile, stdinText).Err? ==> r == Err(BatchText(file, stdin, readFile, stdinText).error)
    ensures (BatchText(file, stdin, readFile, stdinText).Ok? && parseJson(BatchText(file, stdin, readFile, stdinText).value).None?)
            ==> r == Err("Failed to parse batch JSON")
    ensures r.Ok? ==> BatchText(file, stdin, readFile, stdinText).Ok?
                      && parseJson(BatchText(file, stdin, readFile, stdinText).value).Some?
                      && r == DecodeBatchValue(parseJson(BatchText(file, stdin, readFile, stdinText).value).value)
  {
    match BatchText(file, stdin, readFile, stdinText)
    case Err(e) => Err(e)
    case Ok(text) =>
      match parseJson(text)
      case None => Err("Failed to parse batch JSON")
      case Some(value) => DecodeBatchValue(value)
  }

  // ---------------------------------------------------------------------------------------------
  // Running a batch
  // ---------------------------------------------------------------------------------------------

  /** The commands a list of steps sends, one per step, in order. */
  function BatchCommands(ops: seq<BatchOperation>): (r: seq<Json>)
    ensures |r| == |ops|
    ensures forall i :: 0 <= i < |ops| ==> r[i] == Bridge.CommandJson(ops[i].op, Some(ops[i].params))
  {
    seq(|ops|, i requires 0 <= i < |ops| => Bridge.CommandJson(ops[i].op, Some(ops[i].params)))
  }

  /** The result recorded for step `index` of a batch. */
  function BatchRecord(index: nat, op: string, outcome: Result<Json, string>): (r: Json)
    ensures r.JObj? && r.fields.Keys == {"index", "op", "status", if outcome.Ok? then "result" else "error"}
    ensures r.fields["index"] == JInt(index) && r.fields["op"] == JStr(op)
    ensures r.fields["status"] == JStr(if outcome.Ok? then "success" else "error")
    ensures outcome.Ok? ==> r.fields["result"] == outcome.value
    ensures outcome.Err? ==> r.fields["error"] == JStr(outcome.error)
  {
    match outcome
    case Ok(v) => JObj(map["index" := JInt(index), "op" := JStr(op), "status" := JStr("success"), "result" := v])
    case Err(e) => JObj(map["index" := JInt(index), "op" := JStr(op), "status" := JStr("error"), "error" := JStr(e)])
  }

  /**
   * The records of a batch run against a backend that has already received `history`: one per
   * step, in order, each holding the outcome of that step's command.
   */
  function BatchResults(bridge: Bridge.ResolveBridge, respond: (Bridge.ResolveBridge, seq<Json>, Json) -> Bridge.ProcessOutput,
                        history: seq<Json>, ops: seq<BatchOperation>): (r: seq<Json>)
    ensures |r| == |ops|
    ensures forall i :: 0 <= i < |ops| ==>
              r[i] == BatchRecord(i, ops[i].op, Bridge.Outcomes(bridge, respond, history, BatchCommands(ops))[i])
  {
    var outcomes := Bridge.Outcomes(bridge, respond, history, BatchCommands(ops));
    seq(|ops|, i requires 0 <= i < |ops| => BatchRecord(i, ops[i].op, outcomes[i]))
  }

  /** The dry-run report: the batch is valid and has `count` steps. */
  function DryRunReport(count: nat): Json {
    JObj(map["valid" := JBool(true), "count" := JInt(count)])
  }

  /** The report of an executed batch. */
  function BatchReport(results: seq<Json>): Json {
    JObj(map["executed" := JBool(true), "results" := JArr(results)])
  }

  /** The record of step `i` extends the records of the steps before it. */
  lemma BatchResultsStep(bridge: Bridge.ResolveBridge, respond: (Bridge.ResolveBridge, seq<Json>, Json) -> Bridge.ProcessOutput,
                         history: seq<Json>, ops: seq<BatchOperation>, i: nat, outcome: Result<Json, string>)
    requires i < |ops|
    requires outcome == Bridge.Interpret(bridge, respond(bridge, history + BatchCommands(ops)[..i],
                                                         Bridge.CommandJson(ops[i].op, Some(ops[i].params))))
    ensures BatchResults(bridge, respond, history, ops)[..i + 1]
            == BatchResults(bridge, respond, history, ops)[..i] + [BatchRecord(i, ops[i].op, outcome)]
  {
    var expected := BatchResults(bridge, respond, history, ops);
    var cmds := BatchCommands(ops);
    assert cmds[i] == Bridge.CommandJson(ops[i].op, Some(ops[i].params));
    assert expected[i] == BatchRecord(i, ops[i].op, outcome);
    Bridge.LogGrows([], expected, i);
  }

  /** Sends every step in order, continuing after a failed step, and records each outcome. */
  method RunSteps(bridge: Bridge.ResolveBridge, backend: Bridge.Backend, ops: seq<BatchOperation>) returns (results: seq<Json>)
    modifies backend
    ensures backend.sent == old(backend.sent) + BatchCommands(ops)
    ensures results == BatchResults(bridge, backend.respond, old(backend.sent), ops)
  {
    ghost var history := backend.sent;
    ghost var cmds := BatchCommands(ops);
    ghost var expected := BatchResults(bridge, backend.respond, history, ops);
    results := [];
    var i := 0;
    while i < |ops|
      invariant 0 <= i <= |ops|
      invariant backend.sent == history + cmds[..i]
      invariant results == expected[..i]
    {
      var outcome := Bridge.ExecuteOperation(bridge, backend, ops[i].op, ops[i].params);
      BatchResultsStep(bridge, backend.respond, history, ops, i, outcome);
      results := results + [BatchRecord(i, ops[i].op, outcome)];
      Bridge.LogGrows(history, cmds, i);
      i := i + 1;
    }
    assert cmds[..i] == cmds;
    assert expected[..i] == expected;
  }

  /**
   * `batch`: read the steps; on a dry run report their number without contacting the bridge;
   * otherwise run every step and report the records.
   */
  method Batch(bridge: Bridge.ResolveBridge, backend: Bridge.Backend, file: Option<string>, stdin: bool, dryRun: bool,
               readFile: string -> Option<string>, stdinText: Result<string, string>, parseJson: string -> Option<Json>)
    returns (r: Result<Json, string>)
    modifies backend
    ensures ParseBatchInput(file, stdin, readFile, stdinText, parseJson).Err? ==>
              r == Err(ParseBatchInput(file, stdin, readFile, stdinText, parseJson).error) && backend.sent == old(backend.sent)
    ensures var input := ParseBatchInput(file, stdin, readFile, stdinText, parseJson);
              input.Ok? && dryRun ==> r == Ok(DryRunReport(|input.value|)) && backend.sent == old(backend.sent)
    ensures var input := ParseBatchInput(file, stdin, readFile, stdinText, parseJson);
              input.Ok? && !dryRun ==>
                && backend.sent == old(backend.sent) + BatchCommands(input.value)
                && r == Ok(BatchReport(BatchResults(bridge, backend.respond, old(backend.sent), input.value)))
  {
    var input := ParseBatchInput(file, stdin, readFile, stdinText, parseJson);
    if input.Err? {
      return Err(input.error);
    }
    if dryRun {
      return Ok(DryRunReport(|input.value|));
    }
    var results := RunSteps(bridge, backend, input.value);
    r := Ok(BatchReport(results));
  }

  /** Every step of an executed batch is reported, in order, under its own index and op. */
  lemma BatchReportsEveryStep(bridge: Bridge.ResolveBridge, respond: (Bridge.ResolveBridge, seq<Json>, Json) -> Bridge.ProcessOutput,
                              history: seq<Json>, ops: seq<BatchOperation>, i: nat)
    requires i < |ops|
    ensures var report := BatchReport(BatchResults(bridge, respond, history, ops));
      var record := report.fields["results"].items[i];
      && |report.fields["results"].items| == |ops|
      && record.fields["index"] == JInt(i) && record.fields["op"] == JStr(ops[i].op)
      && (record.fields["status"] == JStr("success") <==> Bridge.Outcomes(bridge, respond, history, BatchCommands(ops))[i].Ok?)
  {
  }

  // ---------------------------------------------------------------------------------------------
  // `op` params
  // ---------------------------------------------------------------------------------------------

  /** How many of the three params sources were given. */
  function SourceCount(params: Option<string>, paramsFile: Option<string>, paramsStdin: bool): (n: nat)
    ensures n <= 3
    ensures n == 0 <==> params.None? && paramsFile.None? && !paramsStdin
  {
    (if params.Some? then 1 else 0) + (if paramsFile.Some? then 1 else 0) + (if paramsStdin then 1 else 0)
  }

  /** `parse_params`: at most one source; the params JSON from it, or `{}` when none is given. */
  function ParseParams(params: Option<string>, paramsFile: Option<string>, paramsStdin: bool,
                       readFile: string -> Option<string>, stdinText: Result<string, string>,
                       parseJson: string -> Option<Json>): (r: Result<Json, string>)
    ensures SourceCount(params, paramsFile, paramsStdin) > 1 ==>
              r == Err("Use only one of --params, --params-file, or --params-stdin")
    ensures SourceCount(params, paramsFile, paramsStdin) == 0 ==> r == Ok(EmptyObject)
    ensures SourceCount(params, paramsFile, paramsStdin) == 1 && params.Some? ==>
              r == if parseJson(params.value).Some? then Ok(parseJson(params.value).value) else Err("Failed to parse --params JSON")
    ensures SourceCount(params, paramsFile, paramsStdin) == 1 && paramsFile.Some? ==>
              r == if readFile(paramsFile.value).None? then Err("Failed to read file: " + paramsFile.value)
                   else if parseJson(readFile(paramsFile.value).value).None? then Err("Failed to parse --params-file JSON")
                   else Ok(parseJson(readFile(paramsFile.value).value).value)
    ensures SourceCount(params, paramsFile, paramsStdin) == 1 && paramsStdin ==>
              r == if stdinText.Err? then Err(stdinText.error)
                   else if parseJson(stdinText.value).None? then Err("Failed to parse JSON from stdin")
                   else Ok(parseJson(stdinText.value).value)
  {
    if SourceCount(params, paramsFile, paramsStdin) > 1 then
      Err("Use only one of --params, --params-file, or --params-stdin")
    else if params.Some? then
      match parseJson(params.value)
      case None => Err("Failed to parse --params JSON")
      case Some(v) => Ok(v)
    else if paramsFile.Some? then
      match readFile(paramsFile.value)
      case None => Err("Failed to read file: " + paramsFile.value)
      case Some(text) =>
        match parseJson(text)
        case None => Err("Failed to parse --params-file JSON")
        case Some(v) => Ok(v)
    else if paramsStdin then
      match stdinText
      case Err(e) => Err(e)
      case Ok(text) =>
        match parseJson(text)
        case None => Err("Failed to parse JSON from stdin")
        case Some(v) => Ok(v)
    else Ok(EmptyObject)
  }

  /** `op`: the operation is sent only when its params were read; otherwise the bridge is not used. */
  method Op(bridge: Bridge.ResolveBridge, backend: Bridge.Backend, op: string, params: Option<string>, paramsFile: Option<string>,
            paramsStdin: bool, readFile: string -> Option<string>, stdinText: Result<string, string>,
            parseJson: string -> Option<Json>) returns (r: Result<Json, string>)
    modifies backend
    ensures var p := ParseParams(params, paramsFile, paramsStdin, readFile, stdinText, parseJson);
      && (p.Err? ==> r == Err(p.error) && backend.sent == old(backend.sent))
      && (p.Ok? ==> backend.sent == old(backend.sent) + [Bridge.CommandJson(op, Some(p.value))]
                    && r == Bridge.Interpret(bridge, backend.respond(bridge, old(backend.sent), Bridge.CommandJson(op, Some(p.value)))))
  {
    var p := ParseParams(params, paramsFile, paramsStdin, readFile, stdinText, parseJson);
    if p.Err? {
      return Err(p.error);
    }
    r := Bridge.ExecuteOperation(bridge, backend, op, p.value);
  }

  // ---------------------------------------------------------------------------------------------
  // Property values and KEY=VALUE pairs
  // ---------------------------------------------------------------------------------------------

  const I64Min := -0x8000_0000_0000_0000
  const I64Max := 0x7FFF_FFFF_FFFF_FFFF

  /** Rust's `str::parse::<i64>`: an optional sign, then one or more ASCII digits, in range. */
  function ParseI64(s: string): (r: Option<int>)
    ensures r.Some? ==> I64Min <= r.value <= I64Max
    ensures s == [] ==> r.None?
    ensures r.Some? ==> forall i :: 0 <= i < |s| ==> IsDigit(s[i]) || (i == 0 && (s[i] == '-' || s[i] == '+'))
    ensures r.Some? ==> exists i :: 0 <= i < |s| && IsDigit(s[i])
    ensures s != [] && (forall i :: 0 <= i < |s| ==> IsDigit(s[i]))
            ==> r == if DigitsValue(s) <= I64Max then Some(DigitsValue(s)) else None
    ensures |s| >= 2 && s[0] == '+' && (forall i :: 1 <= i < |s| ==> IsDigit(s[i]))
            ==> r == if DigitsValue(s[1..]) <= I64Max then Some(DigitsValue(s[1..])) else None
    ensures |s| >= 2 && s[0] == '-' && (forall i :: 1 <= i < |s| ==> IsDigit(s[i]))
            ==> r == if I64Min <= -(DigitsValue(s[1..]) as int) then Some(-(DigitsValue(s[1..]) as int)) else None
  {
    var negative := s != [] && s[0] == '-';
    var digits := if s != [] && (s[0] == '-' || s[0] == '+') then s[1..] else s;
    if digits == [] || !(forall i :: 0 <= i < |digits| ==> IsDigit(digits[i])) then None
    else
      var v: int := if negative then 0 - DigitsValue(digits) else DigitsValue(digits);
      if I64Min <= v <= I64Max then Some(v) else None
  }

  /** Every 64-bit integer, written in decimal, parses back to itself. */
  lemma ParseI64OfIntToString(i: int)
    requires I64Min <= i <= I64Max
    ensures ParseI64(IntToString(i)) == Some(i)
  {
    var s := IntToString(i);
    if i < 0 {
      var n := NatToString(-i);
      assert s == "-" + n;
      assert s[1..] == n;
      assert forall k :: 1 <= k < |s| ==> IsDigit(s[k]) by {
        forall k | 1 <= k < |s| ensures IsDigit(s[k]) { assert s[k] == n[k - 1]; }
      }
      DigitsValueOfNatToString(-i);
    } else {
      DigitsValueOfNatToString(i);
    }
  }

  /** Text that starts like a JSON object, array or string. */
  predicate OpensAsJson(t: string) {
    t != [] && (t[0] == '{' || t[0] == '[' || t[0] == '"')
  }

  /**
   * `parse_property_value` on the trimmed text: `true`/`false` in any ASCII case, then a 64-bit
   * integer, then a finite float (`parseFloat`), then JSON when the text opens like an object,
   * array or string (`parseJson`); anything else is the text itself.
   */
  function ParsePropertyValue(raw: string, parseFloat: string -> Option<Json>, parseJson: string -> Option<Json>): (r: Json)
    ensures EqualsIgnoreAsciiCase(Trim(raw), "true") ==> r == JBool(true)
    ensures !EqualsIgnoreAsciiCase(Trim(raw), "true") && EqualsIgnoreAsciiCase(Trim(raw), "false") ==> r == JBool(false)
    ensures r.JBool? ==> EqualsIgnoreAsciiCase(Trim(raw), if r.b then "true" else "false") || parseFloat(Trim(raw)).Some? || parseJson(Trim(raw)).Some?
    ensures (!EqualsIgnoreAsciiCase(Trim(raw), "true") && !EqualsIgnoreAsciiCase(Trim(raw), "false")
             && ParseI64(Trim(raw)).Some?) ==> r == JInt(ParseI64(Trim(raw)).value)
    ensures r.JStr? && r.s != Trim(raw) ==> parseFloat(Trim(raw)).Some? || parseJson(Trim(raw)).Some?
    ensures (!EqualsIgnoreAsciiCase(Trim(raw), "true") && !EqualsIgnoreAsciiCase(Trim(raw), "false")
             && ParseI64(Trim(raw)).None? && parseFloat(Trim(raw)).Some?) ==> r == parseFloat(Trim(raw)).value
    ensures (!EqualsIgnoreAsciiCase(Trim(raw), "true") && !EqualsIgnoreAsciiCase(Trim(raw), "false")
             && ParseI64(Trim(raw)).None? && parseFloat(Trim(raw)).None?)
            ==> r == if OpensAsJson(Trim(raw)) && parseJson(Trim(raw)).Some? then parseJson(Trim(raw)).value
                     else JStr(Trim(raw))
  {
    var t := Trim(raw);
    if EqualsIgnoreAsciiCase(t, "true") then JBool(true)
    else if EqualsIgnoreAsciiCase(t, "false") then JBool(false)
    else match ParseI64(t)
      case Some(i) => JInt(i)
      case None =>
        match parseFloat(t)
        case Some(number) => number
        case None =>
          if OpensAsJson(t) && parseJson(t).Some? then parseJson(t).value
          else JStr(t)
  }

  /** An integer value round-trips: `KEY=<n>` gives the number `n`, not a string. */
  lemma IntegerPropertyRoundTrip(i: int, parseFloat: string -> Option<Json>, parseJson: string -> Option<Json>)
    requires I64Min <= i <= I64Max
    ensures ParsePropertyValue(IntToString(i), parseFloat, parseJson) == JInt(i)
  {
    var s := IntToString(i);
    assert s[0] == '-' || IsDigit(s[0]);
    TrimOfTrimmed(s);
    ParseI64OfIntToString(i);
    assert AsciiLower(s)[0] == s[0];
    assert AsciiLower(s) != AsciiLower("true") by {
      assert AsciiLower("true")[0] == 't';
    }
    assert AsciiLower(s) != AsciiLower("false") by {
      assert AsciiLower("false")[0] == 'f';
    }
  }

  /** `splitn(2, '=')`: the text before the first `=` and the text after it (empty when none). */
  function SplitAtEquals(item: string): (r: (string, string))
    ensures Find(item, "=").None? ==> r == (item, "")
    ensures Find(item, "=").Some? ==> var k := Find(item, "=").value;
      r.0 + "=" + r.1 == item && '=' !in r.0
  {
    match Find(item, "=")
    case None => (item, "")
    case Some(k) =>
      assert item[..k] + "=" + item[k + 1..] == item by {
        assert item[k..k + 1] == "=";
      }
      assert forall j :: 0 <= j < k ==> item[j] != '=' by {
        forall j | 0 <= j < k
          ensures item[j] != '='
        {
          assert !OccursAt(item, "=", j);
          assert item[j..j + 1] == [item[j]];
        }
      }
      (item[..k], item[k + 1..])
  }

  /** One `KEY=VALUE` item: the trimmed key and raw value, or `None` when either is empty. */
  function KeyValue(item: string): (r: Option<(string, string)>)
    ensures r.Some? ==> r.value.0 == Trim(SplitAtEquals(item).0) && r.value.1 == Trim(SplitAtEquals(item).1)
    ensures r.Some? <==> Trim(SplitAtEquals(item).0) != "" && Trim(SplitAtEquals(item).1) != ""
  {
    var (key, raw) := SplitAtEquals(item);
    if Trim(key) == "" || Trim(raw) == "" then None else Some((Trim(key), Trim(raw)))
  }

  function PropertyFormatError(item: string): string {
    "Invalid property format: " + item + " (use KEY=VALUE)"
  }

  /** The object built by inserting `pairs` in order: a later key overwrites an earlier one. */
  function PairsMap<V>(pairs: seq<(string, V)>): map<string, V> {
    if pairs == [] then map[]
    else PairsMap(pairs[..|pairs| - 1])[pairs[|pairs| - 1].0 := pairs[|pairs| - 1].1]
  }

  lemma PairsMapAppend<V>(pairs: seq<(string, V)>, p: (string, V))
    ensures PairsMap(pairs + [p]) == PairsMap(pairs)[p.0 := p.1]
  {
    assert (pairs + [p])[..|pairs|] == pairs;
  }

  /** One well-formed item as a property: its key and its parsed value. */
  function Property(item: string, parseFloat: string -> Option<Json>, parseJson: string -> Option<Json>): (r: Option<(string, Json)>)
    ensures r.Some? <==> KeyValue(item).Some?
    ensures r.Some? ==> r.value == (KeyValue(item).value.0, ParsePropertyValue(KeyValue(item).value.1, parseFloat, parseJson))
  {
    match KeyValue(item)
    case None => None
    case Some(kv) => Some((kv.0, ParsePropertyValue(kv.1, parseFloat, parseJson)))
  }

  /** The pairs `parse` reads from `items`, when it accepts every item. */
  function ParsedPairs<V>(items: seq<string>, parse: string -> Option<(string, V)>): (r: seq<(string, V)>)
    requires forall i :: 0 <= i < |items| ==> parse(items[i]).Some?
    ensures |r| == |items|
    ensures forall i :: 0 <= i < |items| ==> Some(r[i]) == parse(items[i])
  {
    seq(|items|, i requires 0 <= i < |items| => parse(items[i]).value)
  }

  /**
   * The loop of `parse_key_value_pairs`: inserts the pair read from each item in order, and stops
   * at the first item that is rejected, giving its position.
   */
  method InsertPairs<V>(items: seq<string>, parse: string -> Option<(string, V)>) returns (m: map<string, V>, failed: Option<nat>)
    ensures failed.None? <==> forall i :: 0 <= i < |items| ==> parse(items[i]).Some?
    ensures failed.None? ==> m == PairsMap(ParsedPairs(items, parse))
    ensures failed.Some? ==> failed.value < |items| && parse(items[failed.value]).None?
                             && forall j :: 0 <= j < failed.value ==> parse(items[j]).Some?
  {
    m := map[];
    ghost var pairs: seq<(string, V)> := [];
    var i := 0;
    while i < |items|
      invariant 0 <= i <= |items|
      invariant |pairs| == i
      invariant forall j :: 0 <= j < i ==> parse(items[j]) == Some(pairs[j])
      invariant m == PairsMap(pairs)
    {
      var pair := parse(items[i]);
      if pair.None? {
        return m, Some(i);
      }
      PairsMapAppend(pairs, pair.value);
      m := m[pair.value.0 := pair.value.1];
      pairs := pairs + [pair.value];
      i := i + 1;
    }
    assert pairs == ParsedPairs(items, parse);
    failed := None;
  }

  /** The properties of the items, when every item is well formed. */
  function Properties(items: seq<string>, parseFloat: string -> Option<Json>, parseJson: string -> Option<Json>): (r: seq<(string, Json)>)
    requires forall i :: 0 <= i < |items| ==> KeyValue(items[i]).Some?
    ensures |r| == |items|
    ensures forall i :: 0 <= i < |items| ==> Some(r[i]) == Property(items[i], parseFloat, parseJson)
  {
    seq(|items|, i requires 0 <= i < |items| => Property(items[i], parseFloat, parseJson).value)
  }

  /**
   * `parse_key_value_pairs`: the object of all properties, or the error for the first malformed
   * item.
   */
  method ParseKeyValuePairs(items: seq<string>, parseFloat: string -> Option<Json>, parseJson: string -> Option<Json>)
    returns (r: Result<Json, string>)
    ensures r.Ok? <==> forall i :: 0 <= i < |items| ==> KeyValue(items[i]).Some?
    ensures r.Ok? ==> r.value == JObj(PairsMap(Properties(items, parseFloat, parseJson)))
    ensures r.Err? ==> exists k :: 0 <= k < |items| && KeyValue(items[k]).None?
                                   && (forall j :: 0 <= j < k ==> KeyValue(items[j]).Some?)
                                   && r.error == PropertyFormatError(items[k])
  {
    var parse := (item: string) => Property(item, parseFloat, parseJson);
    var m, failed := InsertPairs(items, parse);
    if failed.Some? {
      return Err(PropertyFormatError(items[failed.value]));
    }
    assert ParsedPairs(items, parse) == Properties(items, parseFloat, parseJson);
    r := Ok(JObj(m));
  }

  /** The value stored for a key is the one of the last pair that names it. */
  lemma {:induction false} LastKeyWins<V>(pairs: seq<(string, V)>, k: nat)
    requires k < |pairs|
    requires forall j :: k < j < |pairs| ==> pairs[j].0 != pairs[k].0
    ensures pairs[k].0 in PairsMap(pairs) && PairsMap(pairs)[pairs[k].0] == pairs[k].1
    decreases |pairs|
  {
    var n := |pairs| - 1;
    if k < n {
      var prefix := pairs[..n];
      assert forall j :: k < j < n ==> prefix[j] == pairs[j];
      LastKeyWins(prefix, k);
    }
  }

  /** The keys of the object are exactly the keys the pairs name. */
  lemma {:induction false} PairsMapKeys<V>(pairs: seq<(string, V)>)
    ensures PairsMap(pairs).Keys == set i | 0 <= i < |pairs| :: pairs[i].0
    decreases |pairs|
  {
    if pairs != [] {
      var n := |pairs| - 1;
      var prefix := pairs[..n];
      PairsMapKeys(prefix);
      assert forall i :: 0 <= i < n ==> prefix[i] == pairs[i];
      assert (set i | 0 <= i < |pairs| :: pairs[i].0) == (set i | 0 <= i < n :: prefix[i].0) + {pairs[n].0};
    }
  }

  // ---------------------------------------------------------------------------------------------
  // Flag and selector rules
  // ---------------------------------------------------------------------------------------------

  /** `require_toggle`: exactly one of the two flags; the result is whether `enable` was given. */
  function RequireToggle(enable: bool, disable: bool, setting: string): (r: Result<bool, string>)
    ensures r.Ok? <==> enable != disable
    ensures r.Ok? ==> r.value == enable
    ensures r.Err? ==> r.error == "Specify exactly one of --enable/--disable for " + setting
  {
    match (enable, disable)
    case (true, false) => Ok(true)
    case (false, true) => Ok(false)
    case _ => Err("Specify exactly one of --enable/--disable for " + setting)
  }

  /** `require_link_toggle`: exactly one of `--link` and `--unlink`. */
  function RequireLinkToggle(link: bool, unlink: bool): (r: Result<bool, string>)
    ensures r.Ok? <==> link != unlink
    ensures r.Ok? ==> r.value == link
    ensures r.Err? ==> r.error == "Specify exactly one of --link/--unlink"
  {
    match (link, unlink)
    case (true, false) => Ok(true)
    case (false, true) => Ok(false)
    case _ => Err("Specify exactly one of --link/--unlink")
  }

  /** Exactly one of three flags holds. */
  predicate ExactlyOne(a: bool, b: bool, c: bool) {
    (a && !b && !c) || (!a && b && !c) || (!a && !b && c)
  }

  const SingleSelectorError := "Specify exactly one of --all, --index, or --name"

  /** `require_single_selector`: counts the selectors given. */
  method RequireSingleSelector(all: bool, index: bool, name: bool) returns (r: Result<(), string>)
    ensures r.Ok? <==> ExactlyOne(all, index, name)
    ensures r.Err? ==> r.error == SingleSelectorError
  {
    var count := 0;
    if all {
      count := count + 1;
    }
    if index {
      count := count + 1;
    }
    if name {
      count := count + 1;
    }
    if count != 1 {
      return Err(SingleSelectorError);
    }
    return Ok(());
  }

  /** A clip selector names its clips in exactly one way: all, one index, a list of indices, or a name. */
  predicate SelectsOneWay(selector: map<string, Json>) {
    var ways := (if "all" in selector then 1 else 0) + (if "index" in selector then 1 else 0)
              + (if "indices" in selector then 1 else 0) + (if "name" in selector then 1 else 0);
    ways == 1
  }

  /**
   * `build_clip_selector`: the track plus exactly one of `all`, `index` and `name`; an error
   * unless exactly one was given.
   */
  method BuildClipSelector(track: int, index: Option<int>, name: Option<string>, all: bool) returns (r: Result<Json, string>)
    ensures r.Ok? <==> ExactlyOne(all, index.Some?, name.Some?)
    ensures r.Err? ==> r.error == SingleSelectorError
    ensures r.Ok? ==> r.value.JObj? && SelectsOneWay(r.value.fields)
    ensures r.Ok? && all ==> r.value == JObj(map["track" := JInt(track), "all" := JBool(true)])
    ensures r.Ok? && index.Some? ==> r.value == JObj(map["track" := JInt(track), "index" := JInt(index.value)])
    ensures r.Ok? && name.Some? ==> r.value == JObj(map["track" := JInt(track), "name" := JStr(name.value)])
  {
    var selector: map<string, Json> := map["track" := JInt(track)];
    var check := RequireSingleSelector(all, index.Some?, name.Some?);
    if check.Err? {
      return Err(check.error);
    }
    if all {
      selector := selector["all" := JBool(true)];
      return Ok(JObj(selector));
    }
    if index.Some? {
      selector := selector["index" := JInt(index.value)];
      return Ok(JObj(selector));
    }
    assert name.Some?;
    selector := selector["name" := JStr(name.value)];
    return Ok(JObj(selector));
  }

  // ---------------------------------------------------------------------------------------------
  // Params of individual commands
  // ---------------------------------------------------------------------------------------------

  /** `marker add`: frame and colour always; `relative` only when set; the optional fields when given. */
  function MarkerAddParams(frame: int, color: string, relative: bool, name: Option<string>, note: Option<string>, duration: Option<int>)
    : (r: map<string, Json>)
    ensures "frame" in r && r["frame"] == JInt(frame) && "color" in r && r["color"] == JStr(color)
    ensures "relative" in r <==> relative
    ensures relative ==> r["relative"] == JBool(true)
    ensures ("name" in r <==> name.Some?) && (name.Some? ==> r["name"] == JStr(name.value))
    ensures ("note" in r <==> note.Some?) && (note.Some? ==> r["note"] == JStr(note.value))
    ensures ("duration" in r <==> duration.Some?) && (duration.Some? ==> r["duration"] == JInt(duration.value))
    ensures r.Keys <= {"frame", "color", "relative", "name", "note", "duration"}
  {
    var p := map["frame" := JInt(frame), "color" := JStr(color)];
    var p := if relative then p["relative" := JBool(true)] else p;
    var p := if name.Some? then p["name" := JStr(name.value)] else p;
    var p := if note.Some? then p["note" := JStr(note.value)] else p;
    if duration.Some? then p["duration" := JInt(duration.value)] else p
  }

  /** `marker delete`: a frame or a colour is needed; `relative` only when set. */
  function MarkerDeleteParams(frame: Option<int>, color: Option<string>, relative: bool): (r: Result<map<string, Json>, string>)
    ensures r.Err? <==> frame.None? && color.None?
    ensures r.Err? ==> r.error == "Specify --frame or --color for marker delete"
    ensures r.Ok? ==> ("frame" in r.value <==> frame.Some?) && (frame.Some? ==> r.value["frame"] == JInt(frame.value))
    ensures r.Ok? ==> ("color" in r.value <==> color.Some?) && (color.Some? ==> r.value["color"] == JStr(color.value))
    ensures r.Ok? ==> ("relative" in r.value <==> relative) && (relative ==> r.value["relative"] == JBool(true))
    ensures r.Ok? ==> r.value.Keys <= {"frame", "color", "relative"}
  {
    if frame.None? && color.None? then Err("Specify --frame or --color for marker delete")
    else
      var p: map<string, Json> := map[];
      var p := if frame.Some? then p["frame" := JInt(frame.value)] else p;
      var p := if color.Some? then p["color" := JStr(color.value)] else p;
      Ok(if relative then p["relative" := JBool(true)] else p)
  }

  /** `timeline set`: exactly one of a name and an index. */
  function TimelineSetParams(name: Option<string>, index: Option<int>): (r: Result<map<string, Json>, string>)
    ensures r.Ok? <==> name.Some? != index.Some?
    ensures name.Some? && index.Some? ==> r == Err("Use only one of --name or --index")
    ensures name.None? && index.None? ==> r == Err("Specify --name or --index")
    ensures r.Ok? && name.Some? ==> r.value == map["name" := JStr(name.value)]
    ensures r.Ok? && index.Some? ==> r.value == map["index" := JInt(index.value)]
  {
    if name.Some? && index.Some? then Err("Use only one of --name or --index")
    else if name.None? && index.None? then Err("Specify --name or --index")
    else if name.Some? then Ok(map["name" := JStr(name.value)])
    else Ok(map["index" := JInt(index.value)])
  }

  /**
   * `clip color`: exactly one of `--color` and `--clear`, and exactly one selector; the params
   * carry the selector and, unless clearing, the colour.
   */
  function ClipColorParams(track: int, index: Option<int>, name: Option<string>, all: bool, trackType: string,
                           color: Option<string>, clear: bool): (r: Result<map<string, Json>, string>)
    ensures clear && color.Some? ==> r == Err("Use only one of --color or --clear")
    ensures !clear && color.None? ==> r == Err("Specify --color or --clear")
    ensures clear != color.Some? && !ExactlyOne(all, index.Some?, name.Some?) ==> r == Err(SingleSelectorError)
    ensures r.Ok? <==> clear != color.Some? && ExactlyOne(all, index.Some?, name.Some?)
    ensures r.Ok? ==> r.value.Keys == (if clear then {"selector"} else {"selector", "color"})
    ensures r.Ok? && color.Some? ==> r.value["color"] == JStr(color.value)
    ensures r.Ok? ==> r.value["selector"].JObj? && SelectsOneWay(r.value["selector"].fields)
    ensures r.Ok? ==> var s := r.value["selector"].fields;
              && s.Keys == {"track", "track_type", if all then "all" else if index.Some? then "index" else "name"}
              && s["track"] == JInt(track) && s["track_type"] == JStr(trackType)
              && (all ==> s["all"] == JBool(true))
              && (index.Some? ==> s["index"] == JInt(index.value))
              && (name.Some? ==> s["name"] == JStr(name.value))
  {
    if clear && color.Some? then Err("Use only one of --color or --clear")
    else if !clear && color.None? then Err("Specify --color or --clear")
    else if !ExactlyOne(all, index.Some?, name.Some?) then Err(SingleSelectorError)
    else
      var s := map["track" := JInt(track), "track_type" := JStr(trackType)];
      var s := if all then s["all" := JBool(true)]
               else if index.Some? then s["index" := JInt(index.value)]
               else s["name" := JStr(name.value)];
      var p := map["selector" := JObj(s)];
      Ok(if color.Some? then p["color" := JStr(color.value)] else p)
  }

  /**
   * `clip delete`: either `--all` or at least one `--index`; one index is sent as `index`, several
   * as `indices`, in the order given.
   */
  function ClipDeleteParams(track: int, index: seq<int>, all: bool, trackType: string, ripple: bool): (r: Result<map<string, Json>, string>)
    ensures all && index != [] ==> r == Err("Use only one of --all or --index")
    ensures !all && index == [] ==> r == Err("Specify --all or at least one --index")
    ensures r.Ok? <==> all != (index != [])
    ensures r.Ok? ==> r.value.Keys == {"selector", "ripple"} && r.value["ripple"] == JBool(ripple)
    ensures r.Ok? ==> r.value["selector"].JObj? && SelectsOneWay(r.value["selector"].fields)
    ensures r.Ok? ==> var s := r.value["selector"].fields;
              && s.Keys == {"track", "track_type", if all then "all" else if |index| == 1 then "index" else "indices"}
              && s["track"] == JInt(track) && s["track_type"] == JStr(trackType)
              && (all ==> s["all"] == JBool(true))
              && (|index| == 1 ==> s["index"] == JInt(index[0]))
              && (|index| > 1 ==> s["indices"] == IntArray(index))
  {
    if all && index != [] then Err("Use only one of --all or --index")
    else if !all && index == [] then Err("Specify --all or at least one --index")
    else
      var s := map["track" := JInt(track), "track_type" := JStr(trackType)];
      var s := if all then s["all" := JBool(true)]
               else if |index| == 1 then s["index" := JInt(index[0])]
               else s["indices" := IntArray(index)];
      Ok(map["selector" := JObj(s), "ripple" := JBool(ripple)])
  }

  /** `clip link`: exactly one of `--link`/`--unlink`, and at least two indices. */
  function ClipLinkParams(track: int, indices: seq<int>, link: bool, unlink: bool): (r: Result<map<string, Json>, string>)
    ensures link == unlink ==> r == Err("Specify exactly one of --link/--unlink")
    ensures link != unlink && |indices| < 2 ==> r == Err("Provide at least two --indices values to link/unlink")
    ensures r.Ok? <==> link != unlink && |indices| >= 2
    ensures r.Ok? ==> r.value == map["selector" := JObj(map["track" := JInt(track), "indices" := IntArray(indices)]),
                                     "linked" := JBool(link)]
  {
    match RequireLinkToggle(link, unlink)
    case Err(e) => Err(e)
    case Ok(linked) =>
      if |indices| < 2 then Err("Provide at least two --indices values to link/unlink")
      else Ok(map["selector" := JObj(map["track" := JInt(track), "indices" := IntArray(indices)]), "linked" := JBool(linked)])
  }

  // ---------------------------------------------------------------------------------------------
  // `ops list`
  // ---------------------------------------------------------------------------------------------

  /** `ops list` as JSON: `{"operations": ALL}`. */
  function OpsList(): (r: Json)
    ensures r.JObj? && r.fields.Keys == {"operations"}
    ensures r.fields["operations"].JArr? && |r.fields["operations"].items| == |Operations.All|
    ensures forall i :: 0 <= i < |Operations.All| ==> r.fields["operations"].items[i] == JStr(Operations.All[i])
  {
    JObj(map["operations" := StrArray(Operations.All)])
  }
}
