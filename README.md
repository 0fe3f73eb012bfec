# Product-data enrichment pipeline, modelled in Dafny

The backend enriches a product catalogue with a large language model. A
client uploads a CSV or Excel file with a processing request. The request
names a task, a mode, a model, a batch size, optionally product IDs or a
row range, and a custom prompt. The file then runs through four agents, one
after the other:

- **the loader** reads the file and checks for the required columns;
- **the preprocessor** indexes the rows by `PRODUCT_ID`, selects the rows the
  request asks for, and normalises every cell to a trimmed string;
- **the LLM agent** cuts the rows into batches and sends each row to the
  chat-completion service with the task's system prompt. It parses each
  reply as JSON or keeps it raw, and records a failed row without stopping
  the others;
- **the output agent** flattens each result into a CSV row, writes the CSV
  under the first row's header, and records a success summary.

The workflow threads one `AgentState` through these agents. It stops at the
first agent that reports an error. It turns anything raised into a fresh
state that holds only the path, the request and `"Workflow error: " + str(e)`.

The model follows the code file by file, one module per file:

| module | file | form |
|---|---|---|
| `PyValues` | built-ins that the agents rely on: dict get/set, truthiness, `pd.isna`, `str`, `str.strip`, slicing | functions and lemmas |
| `Foreign` | the chat-completion client, `json.loads`, `json.dumps` and `str` of a container | an oracle record `Services` |
| `Schemas` | `backend/models/schemas.py` | datatypes, validation as functions |
| `Prompts` | `backend/agents/prompts.py` | functions |
| `PreprocessorAgent` | `backend/agents/preprocessor_agent.py` | functions for the index and the slice; methods with loops for `_filter_data` and `_clean_data`, each proved against a function |
| `LlmAgent` | `backend/agents/llm_agent.py` | methods with the batch loop and the per-item loop, proved against `EnrichFrom`; the pauses are a ghost counter |
| `OutputAgent` | `backend/agents/output_agent.py` | methods with the loops of `_prepare_csv_data`; functions for the header rule and the summary |
| `Workflow` | `backend/graph/workflow.py` | a method that reassigns the state stage by stage, proved against `RunWorkflow` |

Values and records:

- A Python dict is modelled as a sequence of key/value pairs, in insertion
  order. `Set` keeps an existing key in place and appends a new key.
- An exception is `Raised(str(e))` in an `Outcome`.
- Every agent's except handler calls `AgentState(**state.dict(), error=...)`.
  That call itself raises a TypeError for the duplicate `error` keyword. The
  model therefore turns the preprocessor's and the output agent's errors into
  that TypeError, which escapes to the workflow's handler
  (`Schemas.DuplicateErrorKeyword`).
- Every external effect is a parameter: the service replies (indexed by the
  call's ordinal in the run), the JSON functions, the clock's timestamp, the
  output directory and the loader's result.

## Model

| member | source | states |
|---|---|---|
| `PyValues.SetFrame` | backend/agents/output_agent.py:65 | after `d[k] = v`, `d.get(k)` is `v` and every other key reads as before |
| `PyValues.SetKeys` | backend/agents/llm_agent.py:77-81 | `d[k] = v` keeps the keys in place when `k` is present and appends `k` otherwise; the keys stay unique |
| `PyValues.StripResult` | backend/agents/preprocessor_agent.py:78 | `s.strip()` is a contiguous piece of `s` with no whitespace at either end |
| `PyValues.StripIdempotent` | backend/agents/preprocessor_agent.py:78 | stripping a stripped string changes nothing |
| `PyValues.SliceBound` | backend/agents/preprocessor_agent.py:63 | a slice bound is clamped to [0, N] and a negative bound counts from the end |
| `PyValues.PySliceNonNegative` | backend/agents/preprocessor_agent.py:63 | for non-negative bounds, `data[i:j]` has max(0, min(j,N) - min(i,N)) rows, those from min(i,N) on |
| `Schemas.ParseTask` | backend/models/schemas.py:5-10 | exactly the five task strings are accepted, and parsing inverts `.value` |
| `Schemas.ParseMode` | backend/models/schemas.py:12-14 | exactly `batch` and `product_id_lookup` are accepted, and parsing inverts `.value` |
| `Schemas.ParseModel` | backend/models/schemas.py:16-19 | exactly the three model strings are accepted, and parsing inverts `.value` |
| `Schemas.TaskTypeValues` | backend/models/schemas.py:5-10 | five task values, pairwise distinct, each parsing back to its task |
| `Schemas.ModeAndModelValues` | backend/models/schemas.py:12-19 | two mode values and three model values, each parsing back to its member |
| `Schemas.NewRequest` | backend/models/schemas.py:28-36 | validation of a request; its promises are stated by `RequestDefaults`, `TaskAndModeRequired` and `BatchSizeBounds` |
| `Schemas.RequestDefaults` | backend/models/schemas.py:28-36 | with only the required fields given, the model is gpt-3.5-turbo, the batch size 10, and the IDs, row range and custom prompt None |
| `Schemas.TaskAndModeRequired` | backend/models/schemas.py:30-31 | a request without `task` or without `mode` is rejected, naming the missing field |
| `Schemas.BatchSizeBounds` | backend/models/schemas.py:33 | an explicit batch size is accepted iff it is None or within 1..100, and it is kept as given |
| `Schemas.NewState` | backend/models/schemas.py:47-54 | a fresh state has every field None and empty metadata |
| `Prompts.SystemPrompt` | backend/agents/prompts.py:128-130 | a known task gets its table entry; an unknown one gets the attribute-extraction prompt |
| `Prompts.SystemPromptPerTask` | backend/agents/prompts.py:4-116 | the table's keys are exactly the task values, so the default is never taken for a task, and distinct tasks get distinct prompts |
| `Prompts.UserPromptReadsOnlyPromptFields` | backend/agents/prompts.py:132-139 | two items that agree on the four prompt fields get the same user prompt |
| `Prompts.UserPrompt` | backend/agents/prompts.py:132-139 | the template with the four fields filled in; its promises are stated by `UserPromptReadsOnlyPromptFields`, `AbsentFieldIsNA` and `EmptyFieldIsNotNA` |
| `Prompts.AbsentFieldIsNA` | backend/agents/prompts.py:135-138 | an absent field is rendered exactly as if it held "N/A" |
| `Prompts.EmptyFieldIsNotNA` | backend/agents/prompts.py:135-138 | a field that is present but empty gives a different prompt from an absent one: cleaning does not bring back "N/A" |
| `PreprocessorAgent.IdKey` | backend/agents/preprocessor_agent.py:17 | a row's ID key is missing exactly when the row has no `PRODUCT_ID`; `IndexFailsOnMissingId` and `IndexHoldsEveryId` state what the index does with it |
| `PreprocessorAgent.BuildIndex` | backend/agents/preprocessor_agent.py:17 | the index maps IDs to positions within the rows |
| `PreprocessorAgent.IndexFailsOnMissingId` | backend/agents/preprocessor_agent.py:17 | building the index fails iff some row has no `PRODUCT_ID` |
| `PreprocessorAgent.IndexHoldsEveryId` | backend/agents/preprocessor_agent.py:17 | a built index holds every row's `str(PRODUCT_ID)` |
| `PreprocessorAgent.IndexPointsAtId` | backend/agents/preprocessor_agent.py:17 | every ID in the index points at a row carrying that ID |
| `PreprocessorAgent.IndexLastWins` | backend/agents/preprocessor_agent.py:17 | with repeated IDs the last row wins: no later row carries the indexed ID |
| `PreprocessorAgent.SelectIds` | backend/agents/preprocessor_agent.py:51-57 | every selected row is one of the data's rows |
| `PreprocessorAgent.SelectIdsByRequest` | backend/agents/preprocessor_agent.py:54-56 | selection goes ID by ID: a concatenated request selects the concatenation, so a repeated ID gives a repeated row |
| `PreprocessorAgent.SelectOneId` | backend/agents/preprocessor_agent.py:55-56 | one ID selects its indexed row, or nothing when it is unknown |
| `PreprocessorAgent.SelectKnownIds` | backend/agents/preprocessor_agent.py:51-57 | with every ID known, there is one row per ID, in request order, each the indexed row |
| `PreprocessorAgent.SelectKnownIdsLastRow` | backend/agents/preprocessor_agent.py:17-57 | the row selected for an ID carries that ID, and no later row of the file does |
| `PreprocessorAgent.RangeStart` | backend/agents/preprocessor_agent.py:61 | `row_range.get("start", 0)`; `FilterData` and `PreprocessSelectsRange` state the slice that results |
| `PreprocessorAgent.RangeEnd` | backend/agents/preprocessor_agent.py:62 | `row_range.get("end", len(data))`; `FilterData` and `PreprocessSelectsRange` state the slice that results |
| `PreprocessorAgent.Filtered` | backend/agents/preprocessor_agent.py:47-65 | every row that `_filter_data` keeps is a row of the data |
| `PreprocessorAgent.FilterData` | backend/agents/preprocessor_agent.py:47-65 | the loop over the requested IDs yields the ID selection; otherwise a non-empty row range gives `data[start:end]` with the defaults 0 and N; otherwise the data |
| `PreprocessorAgent.CleanCell` | backend/agents/preprocessor_agent.py:75-78 | a cleaned cell is stripped at both ends and, unless the cell is missing, a contiguous piece of the cell's `str()`; `CleanRowPointwise` places it in the row |
| `PreprocessorAgent.CleanRow` | backend/agents/preprocessor_agent.py:72-78 | a cleaned row has unique keys and holds only strings that are stripped at both ends |
| `PreprocessorAgent.CleanRowPointwise` | backend/agents/preprocessor_agent.py:72-78 | for a dict row, cleaning keeps each key in place and stores "" for NaN/None, else `str(v).strip()` |
| `PreprocessorAgent.CleanRows` | backend/agents/preprocessor_agent.py:67-81 | cleaning keeps the number of rows |
| `PreprocessorAgent.CleanRowsShape` | backend/agents/preprocessor_agent.py:67-81 | row i of the output is row i of the input, cleaned pointwise, with the same keys |
| `PreprocessorAgent.CleanRowIdempotent` | backend/agents/preprocessor_agent.py:72-78 | cleaning a cleaned row changes nothing |
| `PreprocessorAgent.CleanRowsIdempotent` | backend/agents/preprocessor_agent.py:67-81 | cleaning cleaned rows changes nothing |
| `PreprocessorAgent.CleanData` | backend/agents/preprocessor_agent.py:67-81 | the nested loops of `_clean_data` compute `CleanRows` of their input |
| `PreprocessorAgent.CleanRowData` | backend/agents/preprocessor_agent.py:72-78 | the inner loop computes the cleaned row |
| `PreprocessorAgent.Preprocess` | backend/agents/preprocessor_agent.py:10-45 | the method computes `Preprocessed`: pass-through, raise, or the cleaned selection |
| `PreprocessorAgent.Preprocessed` | backend/agents/preprocessor_agent.py:10-45 | the preprocessing stage on a state; its promises are stated by `Preprocess`, `PreprocessPassesThrough`, `PreprocessMissingId`, `PreprocessSuccess`, `PreprocessKeepsAllRows`, `PreprocessSelectsIds` and `PreprocessSelectsRange` |
| `PreprocessorAgent.PreprocessPassesThrough` | backend/agents/preprocessor_agent.py:12-13 | a state with an error or without rows is handed on unchanged |
| `PreprocessorAgent.PreprocessMissingId` | backend/agents/preprocessor_agent.py:15-45 | a row without `PRODUCT_ID` makes the stage raise the handler's TypeError |
| `PreprocessorAgent.PreprocessSuccess` | backend/agents/preprocessor_agent.py:20-39 | on success the path, rows and request are kept, results dropped, `processed_data` is the cleaned selection, and the index and both counts join the metadata |
| `PreprocessorAgent.PreprocessKeepsAllRows` | backend/agents/preprocessor_agent.py:20-65 | without a request, or with no IDs and no row range, every row is processed |
| `PreprocessorAgent.PreprocessSelectsIds` | backend/agents/preprocessor_agent.py:51-57 | in ID mode with IDs, the processed rows are the cleaned ID selection |
| `PreprocessorAgent.PreprocessSelectsRange` | backend/agents/preprocessor_agent.py:59-63 | otherwise a non-empty row range processes `data[start:end]`, of the slice's size for non-negative bounds |
| `LlmAgent.ModelName` | backend/agents/llm_agent.py:13-17 | each model maps to its enum value, which parses back to the model |
| `LlmAgent.BatchSizeOf` | backend/agents/llm_agent.py:28 | the batch size in force; `BatchSizeIsOr` states that it is `batch_size or 10` for every validated request |
| `LlmAgent.BatchSizeIsOr` | backend/agents/llm_agent.py:28 | the given size when it is present (and so non-zero), else 10 |
| `LlmAgent.SingleItem` | backend/agents/llm_agent.py:95-122 | an error of the call is re-raised with the prefix "OpenAI API error: " |
| `LlmAgent.EnrichItem` | backend/agents/llm_agent.py:75-91 | one item's enrichment; its promises are stated by `EnrichItemFields`, `RawResponseFallback`, `FailedCallIsRowError` and `FailureIsolation` |
| `LlmAgent.EnrichItemFields` | backend/agents/llm_agent.py:75-91 | a result keeps the item's other fields; `llm_result` is the reply and `error` None, or `llm_result` None and `error` "Item processing error: " plus the message; keys stay unique |
| `LlmAgent.RawResponseFallback` | backend/agents/llm_agent.py:114-119 | content that is not JSON is kept whole under `raw_response`, with no error |
| `LlmAgent.FailedCallIsRowError` | backend/agents/llm_agent.py:84-122 | a failed call, or a reply without content, becomes a row error holding both prefixes and the message |
| `LlmAgent.EnrichFrom` | backend/agents/llm_agent.py:36-37 | the reference the loops are proved equal to: one result per row; its promises are stated by `EnrichFromAt`, `EnrichFromSplit`, `ProcessBatch` and `RunBatches` |
| `LlmAgent.EnrichFromAt` | backend/agents/llm_agent.py:75-91 | row t's result is that row enriched on its own, with the task's system prompt and the model's API name, as call base + t |
| `LlmAgent.IndexedSplit` | backend/agents/llm_agent.py:32-37 | mapping consecutive pieces with running positions is mapping the whole |
| `LlmAgent.EnrichFromSplit` | backend/agents/llm_agent.py:32-37 | batching changes neither the results nor their order |
| `LlmAgent.Batches` | backend/agents/llm_agent.py:32-33 | the batches of `range(0, N, B)`; their promises are stated by `BatchCount`, `BatchAt`, `BatchesFlatten` and `BatchSizes` |
| `LlmAgent.BatchCount` | backend/agents/llm_agent.py:32-33 | there are ceil(N/B) batches |
| `LlmAgent.BatchAt` | backend/agents/llm_agent.py:32-33 | batch j is `data[j*B:(j+1)*B]` |
| `LlmAgent.BatchesFlatten` | backend/agents/llm_agent.py:32-33 | the batches together are the rows again |
| `LlmAgent.BatchSizes` | backend/agents/llm_agent.py:32-33 | every batch but the last holds B rows, the last 1 to B, and there are none only without rows |
| `LlmAgent.PauseCount` | backend/agents/llm_agent.py:40-41 | ceil(N/B) - 1 is a natural number one below the batch count; with `RunBatches`' pause counter (one pause fewer than batches) there are ceil(N/B) - 1 pauses |
| `LlmAgent.ProcessBatch` | backend/agents/llm_agent.py:65-93 | the per-item loop enriches the batch in order, item t going out as call base + t |
| `LlmAgent.NextBatch` | backend/agents/llm_agent.py:32-33 | one turn of the loop takes the next batch off the remaining rows |
| `LlmAgent.RunBatches` | backend/agents/llm_agent.py:27-41 | the batch loop's results are the enrichment of all rows with positions running on across batches; it forms the batches above and pauses between them |
| `LlmAgent.ProcessBatchSync` | backend/agents/llm_agent.py:19-63 | the method computes `Enriched`, with batches and pauses as above |
| `LlmAgent.Enriched` | backend/agents/llm_agent.py:19-63 | the LLM stage on a state; its promises are stated by `EnrichPassesThrough`, `EnrichSuccess` and `ProcessBatchSync` |
| `LlmAgent.EnrichPassesThrough` | backend/agents/llm_agent.py:21-22 | a state with an error, no processed rows or no request is handed on unchanged |
| `LlmAgent.EnrichSuccess` | backend/agents/llm_agent.py:43-55 | otherwise the fields are kept, there is one result per row in order, and the model, task and count join the metadata |
| `LlmAgent.FailureIsolation` | backend/agents/llm_agent.py:75-91 | a failing call affects only its own row |
| `OutputAgent.CopyFields` | backend/agents/output_agent.py:63-65 | only result pairs other than `llm_result` and `error` are copied |
| `OutputAgent.CopyFieldsKeeps` | backend/agents/output_agent.py:63-65 | for a dict, the copy loop keeps exactly the other entries, in order |
| `OutputAgent.FlattenPayload` | backend/agents/output_agent.py:72-76 | the flattening loop; its promises are stated by `FlattenPayloadKeys`, `FlattenPayloadFrame`, `FlattenPayloadAt` and `FlattenInto` |
| `OutputAgent.FlattenPayloadKeys` | backend/agents/output_agent.py:72-76 | every payload entry gets its `llm_` column |
| `OutputAgent.FlattenPayloadFrame` | backend/agents/output_agent.py:72-76 | a column that no payload entry names keeps its value |
| `OutputAgent.FlattenPayloadLast` | backend/agents/output_agent.py:73-76 | the column of the last entry holds a list as its JSON text and anything else as is |
| `OutputAgent.FlattenPayloadAt` | backend/agents/output_agent.py:72-76 | every entry that no later entry with the same key overrides leaves its `llm_` column holding a list as its JSON text and anything else as is |
| `OutputAgent.WithPayload` | backend/agents/output_agent.py:68-78 | the payload step of a row; its promises are stated by `FlattenPayloadKeys`, `FlattenPayloadFrame`, `FlattenPayloadAt`, `WithPayloadOther` and `PayloadNeverAddsProcessingError` |
| `OutputAgent.WithPayloadOther` | backend/agents/output_agent.py:68-78 | a falsy payload adds nothing to the row; a truthy payload that is not a dict makes `llm_result` its `str()` |
| `OutputAgent.WithError` | backend/agents/output_agent.py:80-82 | the error step of a row; its promises are stated by `ProcessingErrorColumn` and `CsvRowValues` |
| `OutputAgent.CsvRow` | backend/agents/output_agent.py:60-84 | one result's CSV row; its promises are stated by `PrepareRow`, `CsvRowValues`, `ProcessingErrorColumn` and `PayloadColumn` |
| `OutputAgent.CsvRowValues` | backend/agents/output_agent.py:80-84 | a truthy error is stored in `processing_error`, and every other column holds what the copy and payload steps put there |
| `OutputAgent.PayloadNeverAddsProcessingError` | backend/agents/output_agent.py:68-78 | the payload never adds a `processing_error` column |
| `OutputAgent.ProcessingErrorColumn` | backend/agents/output_agent.py:63-82 | a row has `processing_error` iff the result's error is truthy or the item had such a column |
| `OutputAgent.KeptKeys` | backend/agents/output_agent.py:64 | a key other than the two skipped ones survives the copy iff it was in the result |
| `OutputAgent.PayloadColumn` | backend/agents/output_agent.py:68-76 | an entry of a truthy dict payload shows up as its `llm_` column in the CSV row |
| `OutputAgent.CsvRows` | backend/agents/output_agent.py:55-86 | one CSV row per result, in order |
| `OutputAgent.PrepareCsvData` | backend/agents/output_agent.py:55-86 | the loop of `_prepare_csv_data` computes `CsvRows` |
| `OutputAgent.PrepareRow` | backend/agents/output_agent.py:60-84 | the loop body computes the result's CSV row |
| `OutputAgent.FlattenInto` | backend/agents/output_agent.py:72-76 | the flattening loop computes `FlattenPayload` |
| `OutputAgent.WriteCsv` | backend/agents/output_agent.py:88-98 | nothing is written without rows; otherwise the header is the first row's keys, and writing fails iff some row has a key outside it |
| `OutputAgent.RowOutsideHeaderRaises` | backend/agents/output_agent.py:93-98 | a later row with a key the first row lacks makes writing fail |
| `OutputAgent.ErrorAfterSuccessRaises` | backend/agents/output_agent.py:80-98 | an error row after an error-free first row makes writing fail |
| `OutputAgent.PayloadAfterErrorRaises` | backend/agents/output_agent.py:68-98 | a payload column that the first row lacks makes writing fail |
| `OutputAgent.Successful` | backend/agents/output_agent.py:103 | a result with a truthy `llm_result` and no truthy `error`; `SuccessMeansTruthyReply` ties it to the call's reply |
| `OutputAgent.CountSuccessful` | backend/agents/output_agent.py:103 | the number of successes is between 0 and the number of results |
| `OutputAgent.CountSuccessfulSplit` | backend/agents/output_agent.py:103 | counting successes adds up over concatenation |
| `OutputAgent.CountSuccessfulExtremes` | backend/agents/output_agent.py:103 | all successful gives the total; none gives 0 |
| `OutputAgent.Summarize` | backend/agents/output_agent.py:100-111 | the summary; its promises are stated by `SummaryCounts` and `CountSuccessful` |
| `OutputAgent.SummaryCounts` | backend/agents/output_agent.py:100-111 | successes and failures add up to the total; the rate is 0 without results, else within 0..100 |
| `OutputAgent.SuccessMeansTruthyReply` | backend/agents/output_agent.py:103 | a result counts as successful iff its call returned a truthy value |
| `OutputAgent.GenerateOutput` | backend/agents/output_agent.py:14-53 | the method computes `Emitted` |
| `OutputAgent.Emitted` | backend/agents/output_agent.py:14-53 | the output stage on a state; its promises are stated by `GenerateOutput`, `EmitPassesThrough`, `EmitOutcome` and `ExportedFields` |
| `OutputAgent.TaskName` | backend/agents/output_agent.py:22 | the request's task value, or "processed"; stated by `OutputFileName` |
| `OutputAgent.OutputPath` | backend/agents/output_agent.py:23-24 | `output_dir / f"{task_name}_{timestamp}.csv"`; stated by `OutputFileName` |
| `OutputAgent.OutputFileName` | backend/agents/output_agent.py:22-24 | the name parses back to the request's task, is "processed" without a request, and the path lies in the output directory and ends in `.csv` |
| `OutputAgent.Exported` | backend/agents/output_agent.py:35-47 | the state handed on after writing; stated by `ExportedFields` |
| `OutputAgent.EmitPassesThrough` | backend/agents/output_agent.py:16-17 | a state with an error or without results is handed on unchanged |
| `OutputAgent.EmitOutcome` | backend/agents/output_agent.py:19-53 | the stage raises iff the rows do not fit the first row's header, with the handler's TypeError; otherwise it hands on the exported state |
| `OutputAgent.ExportedFields` | backend/agents/output_agent.py:35-47 | the exported state keeps every field, clears the error, and adds output file, summary and timestamp to the metadata |
| `Workflow.LoaderState` | backend/agents/csv_loader_agent.py:11-47 | a loader failure is an empty state with the error; a load keeps the path and rows |
| `Workflow.Configured` | backend/graph/workflow.py:36 | the loaded state with the request attached; `SuccessfulRun` shows the request reaching the final state |
| `Workflow.Fallback` | backend/graph/workflow.py:66-73 | the handler's state has only the path, the request and the prefixed error |
| `Workflow.RunWorkflow` | backend/graph/workflow.py:18-73 | the whole run; its promises are stated by `RunWorkflowSync`, `StagesInOrder`, `LoaderErrorReturned`, `ErrorOrigin`, `EmptyFileFails`, `EmptySelectionFails`, `UnknownIdsFail`, `MissingIdFails` and `SuccessfulRun` |
| `Workflow.RunWorkflowSync` | backend/graph/workflow.py:18-73 | the method computes `RunWorkflow`'s final state and stages |
| `Workflow.StagesInOrder` | backend/graph/workflow.py:23-64 | the stages entered are a non-empty prefix of load, preprocess, LLM, output |
| `Workflow.LoaderErrorReturned` | backend/graph/workflow.py:26-30 | a loader error is returned as the loader gave it, after the load alone |
| `Workflow.ErrorOrigin` | backend/graph/workflow.py:28-73 | a failed run carries the loader's error or the handler's state |
| `Workflow.EmptyFileFails` | backend/graph/workflow.py:37-43 | a file without rows ends in the handler with the `len(None)` TypeError |
| `Workflow.EmptySelectionFails` | backend/graph/workflow.py:47-53 | a selection of no rows ends in the handler with the `len(None)` TypeError, after the LLM stage |
| `Workflow.UnknownIdsFail` | backend/graph/workflow.py:47-53 | requesting only IDs the file lacks is such a selection |
| `Workflow.MissingIdFails` | backend/graph/workflow.py:37-73 | a row without `PRODUCT_ID` ends in the handler with the preprocessor's TypeError |
| `Workflow.SuccessfulRun` | backend/graph/workflow.py:55-64 | a run without error went through all four stages and carries the request, the rows, the cleaned selection of the loaded rows as processed data, the LLM results of those rows and the output file |

## Left out

- The file loader (`backend/agents/csv_loader_agent.py`) is not modelled: its result is a parameter. File access, pandas parsing and the required-column check are not modelled.
- `PreprocessorAgent.PreprocessMissingId` and `Workflow.MissingIdFails` cover rows without `PRODUCT_ID`. The loader rules that case out: it rejects a file without a `PRODUCT_ID` column (`backend/agents/csv_loader_agent.py`, lines 30-34), and `to_dict('records')` gives every row every column. Since the loader's result is a parameter, the model keeps the preprocessor's own handling of that case.
- Printing and logging are left out, as are the emoji-bearing `print` calls.
- The CSV file itself is not modelled: no quoting, no encoding, nothing written to disk. Only the header choice and the rule that rejects a row with fields outside the header are kept.
- `OutputAgent.WriteCsv`: the DictWriter message is only its fixed prefix. The list of offending fields is dropped, and the message never leaves the agent anyway.
- `OutputAgent.SummaryCounts`: the success rate is a Dafny `real`, not a binary float. The integer `0` without results is written `0.0`.
- `OutputAgent.OutputPath`: `Path` joining is string concatenation with "/". No path normalisation is modelled.
- The timestamp is a parameter; `pd.Timestamp.now()` is not modelled.
- `time.sleep(1)` is a ghost pause counter; its duration is left out.
- `temperature` and `max_tokens` are not passed to the service oracle.
- The API key and the client setup are not modelled.
- `LlmAgent.ProcessBatchSync`: the outer except handler of `process_batch_sync` is not modelled. Each item's errors are caught per item, and nothing else in the loop raises. Had it fired, that handler's own call would raise the same duplicate-keyword TypeError as the others.
- `process_batch` (the async wrapper) is not modelled; it only calls `process_batch_sync`.
- NaN and NaT are one value. `pd.isna` is modelled on scalar cells only, which is what pandas loads.
- Numbers and booleans are an `Atom` carrying their `str()` text and their truthiness; no arithmetic is done on them.
- `PreprocessorAgent.IdKey`: `str(row['PRODUCT_ID'])` of a number uses the `Atom`'s text. Requested IDs match only through that text, as in the code.
- `PreprocessorAgent.CleanRowPointwise` and `OutputAgent.CopyFieldsKeeps` assume unique keys, which every Python dict has. The record type does not enforce it.
- `Prompts`: the five system prompt texts are placeholder constants. Only which prompt is chosen matters here.
- The custom prompt field exists in the request but is unused by the core. The model carries it and does nothing with it, as the code does.
- `NodeConfig` and `WorkflowState` are declared and used nowhere (`backend/models/__init__.py` only re-exports them); `FileUploadResponse` and `ProcessingResult` are the HTTP layer's response types. None of the four is modelled. The HTTP layer itself (`backend/main.py`), the file handler, the configuration and the setup check are not part of this model.
- `str()` of a list or dict is an oracle (`Services.showContainer`); `json.dumps` and `json.loads` are oracles as well.
