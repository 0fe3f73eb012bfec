/** The output stage: every result is flattened into a CSV row, the rows are
    written under the first row's header, and a success summary is recorded. */
module OutputAgent {
  import opened PyValues
  import opened Foreign
  import opened Schemas
  import LlmAgent

  /** The two result keys the copy loop skips. */
  predicate Reserved(key: string)
  {
    key == "llm_result" || key == "error"
  }

  /** The copy loop of `_prepare_csv_data`: `row[key] = value` for every other
      key of the result, visited in order. */
  function CopyFields(result: Record): (row: Record)
    ensures forall p :: p in row ==> p in result && !Reserved(p.0)
  {
    if result == [] then []
    else
      var last := |result| - 1;
      var row := CopyFields(result[..last]);
      if Reserved(result[last].0) then row else Set(row, result[last].0, result[last].1)
  }

  /** The result without its `llm_result` and `error` entries, order kept. */
  function Kept(result: Record): (r: Record)
    ensures forall p :: p in r ==> p in result
  {
    if result == [] then []
    else
      var last := |result| - 1;
      Kept(result[..last]) + (if Reserved(result[last].0) then [] else [result[last]])
  }

  /** For a dict, the copy loop keeps exactly the other entries, in order and
      with their values unchanged. */
  lemma {:induction false} CopyFieldsKeeps(result: Record)
    requires UniqueKeys(result)
    ensures CopyFields(result) == Kept(result)
  {
    if result != [] {
      var last := |result| - 1;
      var init := result[..last];
      assert UniqueKeys(init) by {
        assert forall i :: 0 <= i < last ==> init[i] == result[i];
      }
      CopyFieldsKeeps(init);
      var key := result[last].0;
      if !Reserved(key) {
        assert key !in Keys(Kept(init)) by {
          forall i | 0 <= i < |Kept(init)| ensures Kept(init)[i].0 != key {
            var j :| 0 <= j < last && init[j] == Kept(init)[i];
            assert result[j].0 != result[last].0;
          }
        }
        SetAbsent(Kept(init), key, result[last].1);
      }
    }
  }

  /** A payload entry as stored: a list JSON-encoded, anything else as is. */
  function PayloadCell(svc: Services, v: Value): Value
  {
    if v.List? then Str(svc.dumpsJson(v)) else v
  }

  /** The flattening loop: `row["llm_" + key]` for each payload entry in order. */
  function FlattenPayload(svc: Services, row: Record, entries: seq<(string, Value)>): Record
  {
    if entries == [] then row
    else
      var last := |entries| - 1;
      Set(FlattenPayload(svc, row, entries[..last]), "llm_" + entries[last].0, PayloadCell(svc, entries[last].1))
  }

  /** A truthy dict payload is spread over `llm_` columns, another truthy
      payload becomes `llm_result` = str(payload), a falsy one adds nothing. */
  function WithPayload(svc: Services, row: Record, result: Record): Record
  {
    if !TruthyAt(result, "llm_result") then row
    else
      match Get(result, "llm_result").value
      case Dict(entries) => FlattenPayload(svc, row, entries)
      case v => Set(row, "llm_result", Str(ToStr(svc, v)))
  }

  /** A truthy `error` becomes the `processing_error` column. */
  function WithError(row: Record, result: Record): Record
  {
    if TruthyAt(result, "error") then Set(row, "processing_error", Get(result, "error").value) else row
  }

  /** The CSV row `_prepare_csv_data` builds for one result. */
  function CsvRow(svc: Services, result: Record): Record
  {
    WithError(WithPayload(svc, CopyFields(result), result), result)
  }

  /** `f` applied to every element, in order. */
  function Mapped<T, U>(f: T -> U, xs: seq<T>): (r: seq<U>)
    ensures |r| == |xs|
  {
    seq(|xs|, i requires 0 <= i < |xs| => f(xs[i]))
  }

  /** One more element mapped extends the mapped prefix by its image. */
  lemma MappedNext<T, U>(f: T -> U, xs: seq<T>, i: int, acc: seq<U>)
    requires 0 <= i < |xs| && acc == Mapped(f, xs[..i])
    ensures acc + [f(xs[i])] == Mapped(f, xs[..i + 1])
  {
  }

  /** `CsvRow` as a function value, for `Mapped`. */
  function CsvRowOf(svc: Services): Record -> Record
  {
    result => CsvRow(svc, result)
  }

  /** The rows `_prepare_csv_data` returns: one per result, in order. */
  function CsvRows(svc: Services, results: seq<Record>): (rows: seq<Record>)
    ensures |rows| == |results|
    ensures forall i :: 0 <= i < |results| ==> rows[i] == CsvRow(svc, results[i])
  {
    Mapped(CsvRowOf(svc), results)
  }

  /** Every payload entry gets its `llm_` column. */
  lemma {:induction false} FlattenPayloadKeys(svc: Services, row: Record, entries: seq<(string, Value)>)
    ensures forall i :: 0 <= i < |entries| ==> "llm_" + entries[i].0 in Keys(FlattenPayload(svc, row, entries))
  {
    if entries != [] {
      var last := |entries| - 1;
      var init := entries[..last];
      FlattenPayloadKeys(svc, row, init);
      SetKeys(FlattenPayload(svc, row, init), "llm_" + entries[last].0, PayloadCell(svc, entries[last].1));
      assert forall i :: 0 <= i < last ==> init[i] == entries[i];
    }
  }

  /** A column no payload entry names keeps its value. */
  lemma {:induction false} FlattenPayloadFrame(svc: Services, row: Record, entries: seq<(string, Value)>, k: string)
    requires forall i :: 0 <= i < |entries| ==> k != "llm_" + entries[i].0
    ensures Get(FlattenPayload(svc, row, entries), k) == Get(row, k)
  {
    if entries != [] {
      var last := |entries| - 1;
      var init := entries[..last];
      assert forall i :: 0 <= i < last ==> init[i] == entries[i];
      FlattenPayloadFrame(svc, row, init, k);
      SetFrame(FlattenPayload(svc, row, init), "llm_" + entries[last].0, PayloadCell(svc, entries[last].1));
    }
  }

  /** The column of the last entry holds that entry's cell: a list as its JSON
      text, anything else as is. */
  lemma FlattenPayloadLast(svc: Services, row: Record, entries: seq<(string, Value)>)
    requires entries != []
    ensures var e := entries[|entries| - 1];
      Get(FlattenPayload(svc, row, entries), "llm_" + e.0) == Some(if e.1.List? then Str(svc.dumpsJson(e.1)) else e.1)
  {
    var last := |entries| - 1;
    SetFrame(FlattenPayload(svc, row, entries[..last]), "llm_" + entries[last].0, PayloadCell(svc, entries[last].1));
  }

  /** Every entry that no later entry overrides leaves its cell in its
      `llm_` column: a list as its JSON text, anything else as is. */
  lemma {:induction false} FlattenPayloadAt(svc: Services, row: Record, entries: seq<(string, Value)>, i: int)
    requires 0 <= i < |entries|
    requires forall j :: i < j < |entries| ==> entries[j].0 != entries[i].0
    ensures Get(FlattenPayload(svc, row, entries), "llm_" + entries[i].0)
            == Some(if entries[i].1.List? then Str(svc.dumpsJson(entries[i].1)) else entries[i].1)
  {
    var last := |entries| - 1;
    var init := entries[..last];
    if i == last {
      FlattenPayloadLast(svc, row, entries);
    } else {
      assert forall j :: i < j < last ==> init[j] == entries[j];
      FlattenPayloadAt(svc, row, init, i);
      var kl := "llm_" + entries[last].0;
      var ki := "llm_" + entries[i].0;
      assert kl != ki by {
        assert kl[4..] == entries[last].0 && ki[4..] == entries[i].0;
      }
      SetFrame(FlattenPayload(svc, row, init), kl, PayloadCell(svc, entries[last].1));
    }
  }

  /** A falsy payload adds nothing to the row; a truthy one that is not a dict
      becomes `llm_result` holding its `str`. */
  lemma WithPayloadOther(svc: Services, row: Record, result: Record)
    ensures !TruthyAt(result, "llm_result") ==> WithPayload(svc, row, result) == row
    ensures TruthyAt(result, "llm_result") && !Get(result, "llm_result").value.Dict? ==>
      Get(WithPayload(svc, row, result), "llm_result") == Some(Str(ToStr(svc, Get(result, "llm_result").value)))
  {
    if TruthyAt(result, "llm_result") && !Get(result, "llm_result").value.Dict? {
      SetFrame(row, "llm_result", Str(ToStr(svc, Get(result, "llm_result").value)));
    }
  }

  /** A truthy error is stored in `processing_error`; every other column of
      the CSV row holds what the copy and payload steps put there. */
  lemma CsvRowValues(svc: Services, result: Record)
    ensures TruthyAt(result, "error") ==> Get(CsvRow(svc, result), "processing_error") == Get(result, "error")
    ensures forall k :: k != "processing_error" ==>
      Get(CsvRow(svc, result), k) == Get(WithPayload(svc, CopyFields(result), result), k)
  {
    var withPayload := WithPayload(svc, CopyFields(result), result);
    if TruthyAt(result, "error") {
      SetFrame(withPayload, "processing_error", Get(result, "error").value);
    }
  }

  /** The payload never adds a `processing_error` column, since its columns are
      `llm_result` and `llm_`-prefixed. */
  lemma PayloadNeverAddsProcessingError(svc: Services, row: Record, result: Record)
    ensures "processing_error" in Keys(WithPayload(svc, row, result)) <==> "processing_error" in Keys(row)
  {
    if TruthyAt(result, "llm_result") {
      var v := Get(result, "llm_result").value;
      if v.Dict? {
        forall i | 0 <= i < |v.entries| ensures "processing_error" != "llm_" + v.entries[i].0 {
          assert ("llm_" + v.entries[i].0)[0] == 'l';
        }
        FlattenPayloadFrame(svc, row, v.entries, "processing_error");
        assert Get(WithPayload(svc, row, result), "processing_error") == Get(row, "processing_error");
      } else {
        SetKeys(row, "llm_result", Str(ToStr(svc, v)));
      }
    }
  }

  /** `processing_error` appears in a row exactly when the result has a truthy
      error or already had such a column. */
  lemma ProcessingErrorColumn(svc: Services, result: Record)
    requires UniqueKeys(result)
    ensures "processing_error" in Keys(CsvRow(svc, result))
            <==> TruthyAt(result, "error") || "processing_error" in Keys(result)
  {
    var copied := CopyFields(result);
    CopyFieldsKeeps(result);
    KeptKeys(result, "processing_error");
    var withPayload := WithPayload(svc, copied, result);
    PayloadNeverAddsProcessingError(svc, copied, result);
    if TruthyAt(result, "error") {
      SetKeys(withPayload, "processing_error", Get(result, "error").value);
    }
  }

  lemma KeysAppend(a: Record, b: Record)
    ensures Keys(a + b) == Keys(a) + Keys(b)
  {
    assert forall i :: 0 <= i < |a| ==> (a + b)[i] == a[i];
    assert forall i :: |a| <= i < |a + b| ==> (a + b)[i] == b[i - |a|];
  }

  /** A key other than the two reserved ones is in the kept entries exactly
      when it is in the result. */
  lemma {:induction false} KeptKeys(result: Record, k: string)
    requires !Reserved(k)
    ensures k in Keys(Kept(result)) <==> k in Keys(result)
  {
    if result != [] {
      var last := |result| - 1;
      KeptKeys(result[..last], k);
      assert result == result[..last] + [result[last]];
      KeysAppend(result[..last], [result[last]]);
      var tail := if Reserved(result[last].0) then [] else [result[last]];
      KeysAppend(Kept(result[..last]), tail);
    }
  }

  /** A payload entry of a truthy dict shows up as its `llm_` column. */
  lemma PayloadColumn(svc: Services, result: Record, i: int)
    requires TruthyAt(result, "llm_result") && Get(result, "llm_result").value.Dict?
    requires 0 <= i < |Get(result, "llm_result").value.entries|
    ensures "llm_" + Get(result, "llm_result").value.entries[i].0 in Keys(CsvRow(svc, result))
  {
    var entries := Get(result, "llm_result").value.entries;
    var withPayload := WithPayload(svc, CopyFields(result), result);
    FlattenPayloadKeys(svc, CopyFields(result), entries);
    if TruthyAt(result, "error") {
      SetKeys(withPayload, "processing_error", Get(result, "error").value);
    }
  }

  /** `_prepare_csv_data` */
  method PrepareCsvData(svc: Services, results: seq<Record>) returns (csvData: seq<Record>)
    ensures csvData == CsvRows(svc, results)
  {
    csvData := [];
    var n := 0;
    while n < |results|
      invariant 0 <= n <= |results|
      invariant csvData == Mapped(CsvRowOf(svc), results[..n])
    {
      var row := PrepareRow(svc, results[n]);
      MappedNext(CsvRowOf(svc), results, n, csvData);
      csvData := csvData + [row];
      n := n + 1;
    }
    assert results[..|results|] == results;
  }

  /** The body of the loop of `_prepare_csv_data`: one result's CSV row. */
  method PrepareRow(svc: Services, result: Record) returns (row: Record)
    ensures row == CsvRow(svc, result)
  {
    row := [];
    var j := 0;
    while j < |result|
      invariant 0 <= j <= |result|
      invariant row == CopyFields(result[..j])
    {
      var key, value := result[j].0, result[j].1;
      if key != "llm_result" && key != "error" {
        row := Set(row, key, value);
      }
      assert result[..j + 1][..j] == result[..j];
      j := j + 1;
    }
    assert result[..|result|] == result;
    if TruthyAt(result, "llm_result") {
      var llmData := Get(result, "llm_result").value;
      if llmData.Dict? {
        row := FlattenInto(svc, row, llmData.entries);
      } else {
        row := Set(row, "llm_result", Str(ToStr(svc, llmData)));
      }
    }
    if TruthyAt(result, "error") {
      row := Set(row, "processing_error", Get(result, "error").value);
    }
  }

  /** The inner loop over `llm_data.items()`. */
  method FlattenInto(svc: Services, base: Record, entries: seq<(string, Value)>) returns (row: Record)
    ensures row == FlattenPayload(svc, base, entries)
  {
    row := base;
    var e := 0;
    while e < |entries|
      invariant 0 <= e <= |entries|
      invariant row == FlattenPayload(svc, base, entries[..e])
    {
      var key, value := entries[e].0, entries[e].1;
      if value.List? {
        row := Set(row, "llm_" + key, Str(svc.dumpsJson(value)));
      } else {
        row := Set(row, "llm_" + key, value);
      }
      assert entries[..e + 1][..e] == entries[..e];
      e := e + 1;
    }
    assert entries[..|entries|] == entries;
  }

  /** Every key of the row is one of the header's. */
  predicate Fits(row: Record, header: seq<string>)
  {
    forall k :: k in Keys(row) ==> k in header
  }

  /** What `csv.DictWriter` accepts under the first row's header: a later row
      may lack columns, but may not bring new ones. */
  predicate CsvAccepts(rows: seq<Record>)
  {
    rows == [] || forall i :: 0 <= i < |rows| ==> Fits(rows[i], Keys(rows[0]))
  }

  /** The start of the ValueError `DictWriter` raises for a field outside the header. */
  const ExtraFieldsMessage: string := "dict contains fields not in fieldnames"

  /** `_write_csv`: nothing written without rows; otherwise the header it
      writes, or the error for a row with a field outside it. */
  function WriteCsv(rows: seq<Record>): (o: Outcome<Option<seq<string>>>)
    ensures rows == [] <==> o == Done(None)
    ensures o.Done? && rows != [] ==> o.value == Some(Keys(rows[0]))
    ensures o.Raised? <==> !CsvAccepts(rows)
  {
    if rows == [] then Done(None)
    else if CsvAccepts(rows) then Done(Some(Keys(rows[0])))
    else Raised(ExtraFieldsMessage)
  }

  /** A row with a key the first row lacks makes writing fail. */
  lemma RowOutsideHeaderRaises(rows: seq<Record>, j: int, k: string)
    requires 0 <= j < |rows| && k in Keys(rows[j]) && k !in Keys(rows[0])
    ensures WriteCsv(rows).Raised?
  {
  }

  /** An error row after a first row without `processing_error` makes writing
      fail, as mixing failed and successful results does. */
  lemma ErrorAfterSuccessRaises(svc: Services, results: seq<Record>, j: int)
    requires 0 < j < |results| && UniqueKeys(results[0]) && UniqueKeys(results[j])
    requires !TruthyAt(results[0], "error") && "processing_error" !in Keys(results[0])
    requires TruthyAt(results[j], "error")
    ensures WriteCsv(CsvRows(svc, results)).Raised?
  {
    ProcessingErrorColumn(svc, results[0]);
    ProcessingErrorColumn(svc, results[j]);
    RowOutsideHeaderRaises(CsvRows(svc, results), j, "processing_error");
  }

  /** A dict payload entry whose column the first row lacks makes writing
      fail, as a success after a failed first result does. */
  lemma PayloadAfterErrorRaises(svc: Services, results: seq<Record>, j: int, i: int)
    requires 0 < j < |results|
    requires TruthyAt(results[j], "llm_result") && Get(results[j], "llm_result").value.Dict?
    requires 0 <= i < |Get(results[j], "llm_result").value.entries|
    requires "llm_" + Get(results[j], "llm_result").value.entries[i].0 !in Keys(CsvRow(svc, results[0]))
    ensures WriteCsv(CsvRows(svc, results)).Raised?
  {
    PayloadColumn(svc, results[j], i);
    RowOutsideHeaderRaises(CsvRows(svc, results), j, "llm_" + Get(results[j], "llm_result").value.entries[i].0);
  }

  /** `r.get('llm_result') and not r.get('error')` */
  predicate Successful(r: Record)
  {
    TruthyAt(r, "llm_result") && !TruthyAt(r, "error")
  }

  function CountSuccessful(results: seq<Record>): (c: int)
    ensures 0 <= c <= |results|
  {
    if results == [] then 0
    else
      var last := |results| - 1;
      CountSuccessful(results[..last]) + (if Successful(results[last]) then 1 else 0)
  }

  /** Counting successes is additive over concatenation. */
  lemma {:induction false} CountSuccessfulSplit(a: seq<Record>, b: seq<Record>)
    ensures CountSuccessful(a + b) == CountSuccessful(a) + CountSuccessful(b)
    decreases |b|
  {
    if b == [] {
      assert a + b == a;
    } else {
      var b' := b[..|b| - 1];
      assert (a + b)[..|a + b| - 1] == a + b';
      assert (a + b)[|a + b| - 1] == b[|b| - 1];
      CountSuccessfulSplit(a, b');
    }
  }

  /** Every result successful, none, and the count of a single result. */
  lemma CountSuccessfulExtremes(results: seq<Record>)
    ensures (forall i :: 0 <= i < |results| ==> Successful(results[i])) ==> CountSuccessful(results) == |results|
    ensures (forall i :: 0 <= i < |results| ==> !Successful(results[i])) ==> CountSuccessful(results) == 0
  {
    if results != [] {
      var last := |results| - 1;
      CountSuccessfulExtremes(results[..last]);
    }
  }

  /** `_generate_summary` */
  function Summarize(results: seq<Record>): Meta
  {
    var total := |results|;
    var successful := CountSuccessful(results);
    Summary(total, successful, total - successful,
            if total > 0 then (successful as real) / (total as real) * 100.0 else 0.0)
  }

  /** The counts partition the results, and the rate is 0 without results and
      a percentage otherwise. */
  lemma SummaryCounts(results: seq<Record>)
    ensures var s := Summarize(results);
      && s.total == |results| && s.successful == CountSuccessful(results)
      && s.successful + s.failed == s.total && 0 <= s.successful <= s.total && 0 <= s.failed
      && (s.total == 0 ==> s.successRate == 0.0)
      && (s.total > 0 ==> 0.0 <= s.successRate <= 100.0)
  {
    if |results| > 0 {
      RatioBounds(CountSuccessful(results), |results|);
    }
  }

  lemma RatioBounds(s: int, t: int)
    requires 0 <= s <= t && t > 0
    ensures 0.0 <= (s as real) / (t as real) * 100.0 <= 100.0
  {
    var r := (s as real) / (t as real);
    assert r * (t as real) == s as real;
  }

  /** A result of the LLM stage counts as successful exactly when its call
      returned a truthy value: a failed call always counts as failed, and so
      does a reply that parses to an empty or false value. */
  lemma SuccessMeansTruthyReply(svc: Services, k: nat, item: Record, sp: string, mn: string)
    ensures Successful(LlmAgent.EnrichItem(svc, k, item, sp, mn))
            <==> LlmAgent.SingleItem(svc, k, item, sp, mn).Done? && Truthy(LlmAgent.SingleItem(svc, k, item, sp, mn).value)
  {
    LlmAgent.EnrichItemFields(svc, k, item, sp, mn);
  }

  /** The stage runs only without an error and with results. */
  predicate Emits(state: AgentState)
  {
    !HasError(state) && NonEmpty(state.results)
  }

  /** `task_name` of the output file. */
  function TaskName(state: AgentState): string
  {
    if state.taskConfig.Some? then TaskValue(state.taskConfig.value.task) else "processed"
  }

  /** `str(output_dir / f"{task_name}_{timestamp}.csv")` */
  function OutputPath(outputDir: string, taskName: string, timestamp: string): string
  {
    outputDir + "/" + taskName + "_" + timestamp + ".csv"
  }

  /** The file is named after the request's task, or "processed" without a
      request, and lies directly in the output directory with a `.csv` suffix. */
  lemma OutputFileName(state: AgentState, outputDir: string, timestamp: string)
    ensures state.taskConfig.Some? ==> ParseTask(TaskName(state)) == Some(state.taskConfig.value.task)
    ensures state.taskConfig.None? ==> TaskName(state) == "processed"
    ensures var p := OutputPath(outputDir, TaskName(state), timestamp);
      |p| >= |outputDir| + 5 && p[..|outputDir| + 1] == outputDir + "/" && p[|p| - 4..] == ".csv"
  {
    TaskTypeValues();
    var p := OutputPath(outputDir, TaskName(state), timestamp);
    assert p == (outputDir + "/") + (TaskName(state) + "_" + timestamp) + ".csv";
  }

  /** The state handed on once the file is written. */
  function Exported(state: AgentState, path: string, timestamp: string): AgentState
    requires state.results.Some?
  {
    AgentState(state.filePath, state.data, state.processedData, state.taskConfig, state.results, None,
               state.metadata["output_file" := Text(path)]["summary" := Summarize(state.results.value)]
                             ["export_timestamp" := Text(timestamp)])
  }

  /** `generate_output`, with the timestamp and the output directory given.
      A DictWriter error is caught by the stage's handler, whose own
      TypeError escapes. */
  function Emitted(svc: Services, state: AgentState, timestamp: string, outputDir: string): Outcome<AgentState>
  {
    if !Emits(state) then Done(state)
    else if WriteCsv(CsvRows(svc, state.results.value)).Raised? then Raised(DuplicateErrorKeyword)
    else Done(Exported(state, OutputPath(outputDir, TaskName(state), timestamp), timestamp))
  }

  method GenerateOutput(svc: Services, state: AgentState, timestamp: string, outputDir: string)
    returns (out: Outcome<AgentState>)
    ensures out == Emitted(svc, state, timestamp, outputDir)
  {
    if HasError(state) || state.results.None? || |state.results.value| == 0 {
      return Done(state);
    }
    var taskName := if state.taskConfig.Some? then TaskValue(state.taskConfig.value.task) else "processed";
    var outputPath := OutputPath(outputDir, taskName, timestamp);
    var csvData := PrepareCsvData(svc, state.results.value);
    var written := WriteCsv(csvData);
    if written.Raised? {
      return Raised(DuplicateErrorKeyword);
    }
    var summary := Summarize(state.results.value);
    var metadata := state.metadata["output_file" := Text(outputPath)]["summary" := summary]
                                  ["export_timestamp" := Text(timestamp)];
    out := Done(AgentState(state.filePath, state.data, state.processedData, state.taskConfig, state.results, None,
                           metadata));
  }

  /** A state with an error, or without results, is handed on unchanged. */
  lemma EmitPassesThrough(svc: Services, state: AgentState, timestamp: string, outputDir: string)
    requires !Emits(state)
    ensures Emitted(svc, state, timestamp, outputDir) == Done(state)
  {
  }

  /** The stage raises exactly when the rows do not fit the first row's
      header, and otherwise hands on the exported state. */
  lemma EmitOutcome(svc: Services, state: AgentState, timestamp: string, outputDir: string)
    requires Emits(state)
    ensures var o := Emitted(svc, state, timestamp, outputDir);
      && (o.Raised? <==> !CsvAccepts(CsvRows(svc, state.results.value)))
      && (o.Raised? ==> o.message == DuplicateErrorKeyword)
      && (o.Done? ==> o.value == Exported(state, OutputPath(outputDir, TaskName(state), timestamp), timestamp))
  {
  }

  /** The exported state keeps everything the stage received, clears the
      error and records the output file, the summary and the timestamp. */
  lemma ExportedFields(state: AgentState, path: string, timestamp: string)
    requires state.results.Some?
    ensures var s := Exported(state, path, timestamp);
      && s.filePath == state.filePath && s.data == state.data
      && s.processedData == state.processedData && s.taskConfig == state.taskConfig
      && s.results == state.results && s.error.None?
      && s.metadata.Keys == state.metadata.Keys + {"output_file", "summary", "export_timestamp"}
      && s.metadata["output_file"] == Text(path)
      && s.metadata["summary"] == Summarize(state.results.value)
      && s.metadata["export_timestamp"] == Text(timestamp)
      && forall key :: key in state.metadata && key != "output_file" && key != "summary" && key != "export_timestamp" ==>
           s.metadata[key] == state.metadata[key]
  {
  }
}
