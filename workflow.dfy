/** The synchronous workflow: load, preprocess, enrich, write, stopping at the
    first stage that reports an error, and turning anything raised into a
    fresh state that carries only the path, the request and the error. */
module Workflow {
  import opened PyValues
  import opened Foreign
  import opened Schemas
  import PreprocessorAgent
  import LlmAgent
  import OutputAgent

  /** What the file loader produced. Its own checks (the file exists, a known
      suffix, the three required columns) are folded into `LoadFailed`, whose
      message is the error text it reports. */
  datatype LoadResult =
    | LoadFailed(message: string)
    | Loaded(rows: seq<Record>, columns: seq<string>, fileSize: int)

  /** The state `load_file` returns. */
  function LoaderState(path: string, lr: LoadResult): (s: AgentState)
    ensures s.taskConfig.None? && s.processedData.None? && s.results.None?
    ensures lr.LoadFailed? ==> s == NewState().(error := Some(lr.message))
    ensures lr.Loaded? ==> s.filePath == Some(path) && s.data == Some(lr.rows) && s.error.None?
  {
    match lr
    case LoadFailed(m) => AgentState(None, None, None, None, None, Some(m), map[])
    case Loaded(rows, columns, size) =>
      AgentState(Some(path), Some(rows), None, None, None, None,
                 map["row_count" := Count(|rows|), "columns" := Columns(columns), "file_size" := Count(size)])
  }

  datatype Stage = Load | Preprocess | Llm | Output

  const AllStages: seq<Stage> := [Load, Preprocess, Llm, Output]

  /** The state the workflow returns and the stages it entered. */
  datatype Run = Run(final: AgentState, stages: seq<Stage>)

  const WorkflowErrorPrefix: string := "Workflow error: "

  /** The TypeError `len(None)` raises. */
  const NoneLenMessage: string := "object of type 'NoneType' has no len()"

  /** The state the except handler builds from an escaped exception. */
  function Fallback(path: string, config: ProcessingRequest, message: string): (s: AgentState)
    ensures HasError(s) && s.filePath == Some(path) && s.taskConfig == Some(config)
    ensures s.error == Some(WorkflowErrorPrefix + message)
    ensures s.data.None? && s.processedData.None? && s.results.None? && s.metadata == map[]
  {
    AgentState(Some(path), None, None, Some(config), None, Some(WorkflowErrorPrefix + message), map[])
  }

  /** The loaded state with the request attached, as the workflow sets it. */
  function Configured(loaded: AgentState, config: ProcessingRequest): AgentState
  {
    loaded.(taskConfig := Some(config))
  }

  /** `run_workflow_sync`, with the loader's result, the clock and the output
      directory given. */
  function RunWorkflow(svc: Services, path: string, config: ProcessingRequest, lr: LoadResult,
                       timestamp: string, outputDir: string): (r: Run)
    requires lr.Loaded? ==> PreprocessorAgent.FlatRows(lr.rows)
  {
    var loaded := LoaderState(path, lr);
    if HasError(loaded) then Run(loaded, [Load])
    else if loaded.data.None? then Run(Fallback(path, config, NoneLenMessage), [Load])
    else
      match PreprocessorAgent.Preprocessed(Configured(loaded, config))
      case Raised(m) => Run(Fallback(path, config, m), [Load, Preprocess])
      case Done(pre) =>
        if HasError(pre) then Run(pre, [Load, Preprocess])
        else if pre.processedData.None? then Run(Fallback(path, config, NoneLenMessage), [Load, Preprocess])
        else
          var enriched := LlmAgent.Enriched(svc, pre);
          if HasError(enriched) then Run(enriched, [Load, Preprocess, Llm])
          else if enriched.results.None? then Run(Fallback(path, config, NoneLenMessage), [Load, Preprocess, Llm])
          else
            match OutputAgent.Emitted(svc, enriched, timestamp, outputDir)
            case Raised(m) => Run(Fallback(path, config, m), AllStages)
            case Done(out) => Run(out, AllStages)
  }

  /** `run_workflow_sync` */
  method RunWorkflowSync(svc: Services, path: string, config: ProcessingRequest, lr: LoadResult,
                         timestamp: string, outputDir: string)
    returns (state: AgentState, ghost stages: seq<Stage>)
    requires lr.Loaded? ==> PreprocessorAgent.FlatRows(lr.rows)
    ensures state == RunWorkflow(svc, path, config, lr, timestamp, outputDir).final
    ensures stages == RunWorkflow(svc, path, config, lr, timestamp, outputDir).stages
  {
    state := LoaderState(path, lr);
    stages := [Load];
    if !HasError(state) {
      if state.data.None? {
        state := Fallback(path, config, NoneLenMessage);
      } else {
        state := Configured(state, config);
        stages := [Load, Preprocess];
        var pre := PreprocessorAgent.Preprocess(state);
        if pre.Raised? {
          state := Fallback(path, config, pre.message);
        } else {
          state := pre.value;
          if !HasError(state) {
            if state.processedData.None? {
              state := Fallback(path, config, NoneLenMessage);
            } else {
              stages := [Load, Preprocess, Llm];
              ghost var batches, pauses;
              state, batches, pauses := LlmAgent.ProcessBatchSync(svc, state);
              if !HasError(state) {
                if state.results.None? {
                  state := Fallback(path, config, NoneLenMessage);
                } else {
                  stages := AllStages;
                  var out := OutputAgent.GenerateOutput(svc, state, timestamp, outputDir);
                  if out.Raised? {
                    state := Fallback(path, config, out.message);
                  } else {
                    state := out.value;
                  }
                }
              }
            }
          }
        }
      }
    }
  }

  /** The stages entered are a non-empty prefix of load, preprocess, enrich,
      write. */
  lemma StagesInOrder(svc: Services, path: string, config: ProcessingRequest, lr: LoadResult,
                      timestamp: string, outputDir: string)
    requires lr.Loaded? ==> PreprocessorAgent.FlatRows(lr.rows)
    ensures var stages := RunWorkflow(svc, path, config, lr, timestamp, outputDir).stages;
      1 <= |stages| <= |AllStages| && stages == AllStages[..|stages|]
  {
    var stages := RunWorkflow(svc, path, config, lr, timestamp, outputDir).stages;
    assert stages in {[Load], [Load, Preprocess], [Load, Preprocess, Llm], AllStages};
    assert [Load] == AllStages[..1] && [Load, Preprocess] == AllStages[..2];
    assert [Load, Preprocess, Llm] == AllStages[..3] && AllStages == AllStages[..4];
  }

  /** A loader error is returned as the loader reported it, and nothing else
      runs. */
  lemma LoaderErrorReturned(svc: Services, path: string, config: ProcessingRequest, lr: LoadResult,
                            timestamp: string, outputDir: string)
    requires lr.LoadFailed? && lr.message != ""
    ensures RunWorkflow(svc, path, config, lr, timestamp, outputDir) == Run(NewState().(error := Some(lr.message)), [Load])
  {
  }

  /** The error of a failed run is either the loader's own or the except
      handler's, which keeps only the path and the request: no stage after
      loading hands on an error state of its own. */
  lemma ErrorOrigin(svc: Services, path: string, config: ProcessingRequest, lr: LoadResult,
                    timestamp: string, outputDir: string)
    requires lr.Loaded? ==> PreprocessorAgent.FlatRows(lr.rows)
    ensures var r := RunWorkflow(svc, path, config, lr, timestamp, outputDir);
      HasError(r.final) ==>
        || (lr.LoadFailed? && r.final == LoaderState(path, lr) && r.stages == [Load])
        || (exists m :: r.final == Fallback(path, config, m))
  {
    if lr.Loaded? {
      var loaded := LoaderState(path, lr);
      var pre := PreprocessorAgent.Preprocessed(Configured(loaded, config));
      if pre.Done? {
        assert !HasError(pre.value);
        if pre.value.processedData.Some? {
          var enriched := LlmAgent.Enriched(svc, pre.value);
          assert !HasError(enriched);
          if enriched.results.Some? {
            var out := OutputAgent.Emitted(svc, enriched, timestamp, outputDir);
            if out.Raised? {
              assert RunWorkflow(svc, path, config, lr, timestamp, outputDir).final == Fallback(path, config, out.message);
            } else {
              assert !HasError(out.value);
            }
          } else {
            assert RunWorkflow(svc, path, config, lr, timestamp, outputDir).final == Fallback(path, config, NoneLenMessage);
          }
        } else {
          assert RunWorkflow(svc, path, config, lr, timestamp, outputDir).final == Fallback(path, config, NoneLenMessage);
        }
      } else {
        assert RunWorkflow(svc, path, config, lr, timestamp, outputDir).final == Fallback(path, config, pre.message);
      }
    }
  }

  /** A file without rows is not an error to the preprocessor, which hands on
      no processed rows; the workflow's `len` of them then raises. */
  lemma EmptyFileFails(svc: Services, path: string, config: ProcessingRequest, columns: seq<string>, size: int,
                       timestamp: string, outputDir: string)
    ensures RunWorkflow(svc, path, config, Loaded([], columns, size), timestamp, outputDir)
            == Run(Fallback(path, config, NoneLenMessage), [Load, Preprocess])
  {
  }

  /** A selection that leaves no rows is not an error to the preprocessor or
      the LLM stage, which hands on no results; the workflow's `len` of them
      then raises. */
  lemma EmptySelectionFails(svc: Services, path: string, config: ProcessingRequest, lr: LoadResult,
                            timestamp: string, outputDir: string)
    requires lr.Loaded? && lr.rows != [] && PreprocessorAgent.FlatRows(lr.rows)
    requires PreprocessorAgent.BuildIndex(lr.rows).Some?
    requires PreprocessorAgent.Filtered(lr.rows, config, PreprocessorAgent.BuildIndex(lr.rows).value) == []
    ensures RunWorkflow(svc, path, config, lr, timestamp, outputDir)
            == Run(Fallback(path, config, NoneLenMessage), [Load, Preprocess, Llm])
  {
  }

  /** Requesting only IDs the file does not hold is such an empty selection. */
  lemma UnknownIdsFail(svc: Services, path: string, config: ProcessingRequest, lr: LoadResult,
                       timestamp: string, outputDir: string)
    requires lr.Loaded? && lr.rows != [] && PreprocessorAgent.FlatRows(lr.rows)
    requires PreprocessorAgent.BuildIndex(lr.rows).Some? && PreprocessorAgent.SelectsIds(config)
    requires forall id :: id in config.productIds.value ==> id !in PreprocessorAgent.BuildIndex(lr.rows).value
    ensures RunWorkflow(svc, path, config, lr, timestamp, outputDir)
            == Run(Fallback(path, config, NoneLenMessage), [Load, Preprocess, Llm])
  {
    var index := PreprocessorAgent.BuildIndex(lr.rows).value;
    NoKnownIdSelectsNothing(lr.rows, config.productIds.value, index);
    EmptySelectionFails(svc, path, config, lr, timestamp, outputDir);
  }

  lemma {:induction false} NoKnownIdSelectsNothing(data: seq<Record>, ids: seq<string>, index: map<string, int>)
    requires PreprocessorAgent.IndexInRange(index, |data|)
    requires forall id :: id in ids ==> id !in index
    ensures PreprocessorAgent.SelectIds(data, ids, index) == []
  {
    if ids != [] {
      assert ids[|ids| - 1] in ids;
      NoKnownIdSelectsNothing(data, ids[..|ids| - 1], index);
    }
  }

  /** A row without a product ID ends the run in the except handler, with the
      TypeError the preprocessor's own handler raised. */
  lemma MissingIdFails(svc: Services, path: string, config: ProcessingRequest, lr: LoadResult, j: int,
                       timestamp: string, outputDir: string)
    requires lr.Loaded? && PreprocessorAgent.FlatRows(lr.rows)
    requires 0 <= j < |lr.rows| && PreprocessorAgent.IdKey(lr.rows[j]).None?
    ensures RunWorkflow(svc, path, config, lr, timestamp, outputDir)
            == Run(Fallback(path, config, DuplicateErrorKeyword), [Load, Preprocess])
  {
    PreprocessorAgent.PreprocessMissingId(Configured(LoaderState(path, lr), config), j);
  }

  /** A run without error went through all four stages; it carries the
      request, one result per processed row, as the LLM stage built them, and
      the output file. */
  lemma SuccessfulRun(svc: Services, path: string, config: ProcessingRequest, lr: LoadResult,
                      timestamp: string, outputDir: string)
    requires lr.Loaded? ==> PreprocessorAgent.FlatRows(lr.rows)
    requires !HasError(RunWorkflow(svc, path, config, lr, timestamp, outputDir).final)
    ensures var r := RunWorkflow(svc, path, config, lr, timestamp, outputDir);
      && lr.Loaded?
      && r.stages == AllStages
      && r.final.filePath == Some(path) && r.final.data == Some(lr.rows)
      && r.final.taskConfig == Some(config)
      && PreprocessorAgent.BuildIndex(lr.rows).Some?
      && r.final.processedData == Some(PreprocessorAgent.CleanRows(
           PreprocessorAgent.Filtered(lr.rows, config, PreprocessorAgent.BuildIndex(lr.rows).value)))
      && r.final.results == Some(LlmAgent.EnrichFrom(svc, config, 0, r.final.processedData.value))
      && |r.final.results.value| > 0
      && "output_file" in r.final.metadata && "summary" in r.final.metadata
  {
    var loaded := LoaderState(path, lr);
    var configured := Configured(loaded, config);
    var pre := PreprocessorAgent.Preprocessed(configured).value;
    var enriched := LlmAgent.Enriched(svc, pre);
    PreprocessorAgent.PreprocessSuccess(configured);
    LlmAgent.EnrichSuccess(svc, pre);
    OutputAgent.EmitOutcome(svc, enriched, timestamp, outputDir);
    OutputAgent.ExportedFields(enriched, OutputAgent.OutputPath(outputDir, OutputAgent.TaskName(enriched), timestamp), timestamp);
  }
}
