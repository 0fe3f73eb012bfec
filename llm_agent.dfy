/** The batched generation stage: the rows are cut into consecutive batches,
    every row is sent to the chat-completion service once, each reply is
    parsed as JSON (or kept raw), and a failing row records its error without
    stopping the others. */
module LlmAgent {
  import opened PyValues
  import opened Foreign
  import opened Schemas
  import Prompts

  /** `model_mapping`: the API name of each model. */
  function ModelName(m: LLMModel): (name: string)
    ensures name == ModelValue(m)
    ensures Schemas.ParseModel(name) == Some(m)
  {
    match m
    case Gpt35Turbo => "gpt-3.5-turbo"
    case Gpt4oMini => "gpt-4o-mini"
    case Gpt4o => "gpt-4o"
  }

  /** `batch_size or 10` */
  function BatchSizeOf(cfg: ProcessingRequest): BatchSize
  {
    if cfg.batchSize.Some? then cfg.batchSize.value else DefaultBatchSize
  }

  /** Since a validated batch size is at least 1, `batch_size or 10` takes
      the default exactly when no size was given. */
  lemma BatchSizeIsOr(cfg: ProcessingRequest)
    ensures BatchSizeOf(cfg) == (if cfg.batchSize.Some? && cfg.batchSize.value != 0 then cfg.batchSize.value else 10)
  {
  }

  /** What `json.loads(None)` raises when the reply has no content. */
  const NoContentMessage: string := "the JSON object must be str, bytes or bytearray, not NoneType"

  /** The prefixes of the two wrapped error messages. */
  const ApiErrorPrefix: string := "OpenAI API error: "
  const ItemErrorPrefix: string := "Item processing error: "

  /** `_process_single_item_sync` as the `k`-th call of the run: the parsed
      reply, `{"raw_response": content}` when it is not JSON, or the call's
      error wrapped as an OpenAI API error. */
  function SingleItem(svc: Services, k: nat, item: Record, systemPrompt: string, modelName: string): (o: Outcome<Value>)
    ensures o.Raised? ==> |o.message| >= |ApiErrorPrefix| && o.message[..|ApiErrorPrefix|] == ApiErrorPrefix
  {
    match svc.complete(k, modelName, systemPrompt, Prompts.UserPrompt(svc, item))
    case Failure(m) => Raised(ApiErrorPrefix + m)
    case NoContent => Raised(ApiErrorPrefix + NoContentMessage)
    case Content(text) =>
      match svc.parseJson(text)
      case Some(v) => Done(v)
      case None => Done(Dict([("raw_response", Str(text))]))
  }

  /** One entry of `processed_results`: the item's fields with `llm_result`
      and `error` set from the outcome of its call. */
  function EnrichItem(svc: Services, k: nat, item: Record, systemPrompt: string, modelName: string): Record
  {
    match SingleItem(svc, k, item, systemPrompt, modelName)
    case Done(v) => Set(Set(item, "llm_result", v), "error", Null)
    case Raised(m) => Set(Set(item, "llm_result", Null), "error", Str(ItemErrorPrefix + m))
  }

  /** `f` applied to each element together with its position counted from `base`,
      as `enumerate(xs, base)` gives them. */
  function Indexed<T, U>(f: (nat, T) -> U, base: nat, xs: seq<T>): (r: seq<U>)
    ensures |r| == |xs|
  {
    seq(|xs|, t requires 0 <= t < |xs| => f(base + t, xs[t]))
  }

  /** Mapping consecutive pieces one after the other is mapping the whole, the
      positions running on. */
  lemma IndexedSplit<T, U>(f: (nat, T) -> U, base: nat, a: seq<T>, b: seq<T>)
    ensures Indexed(f, base, a + b) == Indexed(f, base, a) + Indexed(f, base + |a|, b)
  {
    var whole, left, right := Indexed(f, base, a + b), Indexed(f, base, a), Indexed(f, base + |a|, b);
    forall t | 0 <= t < |a + b| ensures whole[t] == (left + right)[t] {
      if t < |a| {
        assert (a + b)[t] == a[t];
      } else {
        assert (a + b)[t] == b[t - |a|];
        assert base + t == (base + |a|) + (t - |a|);
      }
    }
  }

  /** One more element extends the mapped prefix by its image. */
  lemma IndexedNext<T, U>(f: (nat, T) -> U, base: nat, xs: seq<T>, i: nat, acc: seq<U>)
    requires i < |xs| && acc == Indexed(f, base, xs[..i])
    ensures acc + [f(base + i, xs[i])] == Indexed(f, base, xs[..i + 1])
  {
    assert xs[..i + 1] == xs[..i] + [xs[i]];
    IndexedSplit(f, base, xs[..i], [xs[i]]);
  }

  /** A mapped slice `xs[i:end]` extends the mapped prefix `xs[:i]`. */
  lemma IndexedNextSlice<T, U>(f: (nat, T) -> U, xs: seq<T>, i: nat, end: int, acc: seq<U>, next: seq<U>)
    requires i <= end <= |xs|
    requires acc == Indexed(f, 0, xs[..i]) && next == Indexed(f, i, xs[i..end])
    ensures acc + next == Indexed(f, 0, xs[..end])
  {
    var done, rest := xs[..i], xs[i..end];
    assert xs[..end] == done + rest;
    IndexedSplit(f, 0, done, rest);
  }

  /** The request's enrichment of the row sent as call `k`. */
  function Enricher(svc: Services, cfg: ProcessingRequest): (nat, Record) -> Record
  {
    var sp, mn := Prompts.SystemPrompt(TaskValue(cfg.task)), ModelName(cfg.llmModel);
    (k: nat, item: Record) => EnrichItem(svc, k, item, sp, mn)
  }

  /** Rows enriched with the request's prompt and model, the row at position
      t going out as call `base + t`. */
  function EnrichFrom(svc: Services, cfg: ProcessingRequest, base: nat, rows: seq<Record>): (r: seq<Record>)
    ensures |r| == |rows|
  {
    Indexed(Enricher(svc, cfg), base, rows)
  }

  /** Row t is enriched on its own, with the task's system prompt and the
      model's API name, as call `base + t`. */
  lemma EnrichFromAt(svc: Services, cfg: ProcessingRequest, base: nat, rows: seq<Record>, t: int)
    requires 0 <= t < |rows|
    ensures EnrichFrom(svc, cfg, base, rows)[t]
            == EnrichItem(svc, base + t, rows[t], Prompts.SystemPrompt(TaskValue(cfg.task)), ModelName(cfg.llmModel))
  {
  }

  /** Enriching consecutive pieces one after the other is enriching the whole:
      batching changes neither the results nor their order. */
  lemma EnrichFromSplit(svc: Services, cfg: ProcessingRequest, base: nat, a: seq<Record>, b: seq<Record>)
    ensures EnrichFrom(svc, cfg, base, a + b) == EnrichFrom(svc, cfg, base, a) + EnrichFrom(svc, cfg, base + |a|, b)
  {
    IndexedSplit(Enricher(svc, cfg), base, a, b);
  }

  /** The stage runs only without an error, with rows to process and with a request. */
  predicate Runs(state: AgentState)
  {
    !HasError(state) && NonEmpty(state.processedData) && state.taskConfig.Some?
  }

  /** `process_batch_sync`, as a function of the state and the services. */
  function Enriched(svc: Services, state: AgentState): AgentState
  {
    if !Runs(state) then state
    else
      var cfg := state.taskConfig.value;
      var results := EnrichFrom(svc, cfg, 0, state.processedData.value);
      AgentState(state.filePath, state.data, state.processedData, state.taskConfig, Some(results), None,
                 state.metadata["llm_model" := Model(cfg.llmModel)]["task_type" := Task(cfg.task)]
                               ["results_count" := Count(|results|)])
  }

  /** `data[i:i+B]` for i = 0, B, 2B, ... */
  function Batches<T>(data: seq<T>, b: int): seq<seq<T>>
    requires b >= 1
    decreases |data|
  {
    if data == [] then []
    else
      var n := Min(b, |data|);
      [data[..n]] + Batches(data[n..], b)
  }

  function Flatten<T>(ss: seq<seq<T>>): seq<T>
  {
    if ss == [] then [] else ss[0] + Flatten(ss[1..])
  }

  lemma MulNonneg(a: int, b: int)
    requires a >= 0 && b >= 0
    ensures a * b >= 0
  {
  }

  lemma MulAtLeast(a: int, b: int)
    requires a >= 1 && b >= 1
    ensures a * b >= b
  {
    assert a * b == (a - 1) * b + b;
    MulNonneg(a - 1, b);
  }

  lemma MulShift(j: int, b: int)
    ensures (j - 1) * b + b == j * b && j * b + b == (j + 1) * b
  {
  }

  lemma DivUnique(n: int, b: int, q: int, r: int)
    requires b >= 1 && 0 <= r < b && n == q * b + r
    ensures n / b == q
  {
    var q', r' := n / b, n % b;
    assert n == q' * b + r';
    if q' < q {
      assert (q - q') * b == r' - r;
      MulAtLeast(q - q', b);
    } else if q' > q {
      assert (q' - q) * b == r - r';
      MulAtLeast(q' - q, b);
    }
  }

  lemma DivStep(x: int, b: int)
    requires x >= 0 && b >= 1
    ensures (x + b) / b == x / b + 1
  {
    var q, r := x / b, x % b;
    assert x + b == (q + 1) * b + r;
    DivUnique(x + b, b, q + 1, r);
  }

  /** There are ceil(N/B) batches, ... */
  lemma {:induction false} BatchCount<T>(data: seq<T>, b: int)
    requires b >= 1
    ensures |Batches(data, b)| == (|data| + b - 1) / b
    decreases |data|
  {
    if data != [] {
      var n := Min(b, |data|);
      BatchCount(data[n..], b);
      if |data| <= b {
        DivUnique(|data| + b - 1, b, 1, |data| - 1);
      } else {
        DivStep(|data| - 1, b);
      }
    }
  }

  /** ... batch j is `data[j*B : (j+1)*B]`, ... */
  lemma {:induction false} BatchAt<T>(data: seq<T>, b: int, j: int)
    requires b >= 1 && 0 <= j < |Batches(data, b)|
    ensures j * b < |data| && Batches(data, b)[j] == data[j * b .. Min((j + 1) * b, |data|)]
    decreases |data|
  {
    var n := Min(b, |data|);
    var rest := data[n..];
    if j > 0 {
      assert Batches(data, b)[j] == Batches(rest, b)[j - 1];
      BatchAt(rest, b, j - 1);
      assert n == b;
      var lo, hi := (j - 1) * b, Min(j * b, |rest|);
      MulShift(j, b);
      MulNonneg(j - 1, b);
      assert 0 <= lo <= hi <= |rest|;
      assert rest[lo..hi] == data[b + lo..b + hi];
      assert b + lo == j * b;
      assert b + hi == Min((j + 1) * b, |data|);
    }
  }

  /** ... and together the batches are the data again. */
  lemma {:induction false} BatchesFlatten<T>(data: seq<T>, b: int)
    requires b >= 1
    ensures Flatten(Batches(data, b)) == data
    decreases |data|
  {
    if data != [] {
      var n := Min(b, |data|);
      BatchesFlatten(data[n..], b);
      assert data[..n] + data[n..] == data;
    }
  }

  /** Every batch but the last holds B rows; the last holds 1 to B. */
  lemma BatchSizes<T>(data: seq<T>, b: int)
    requires b >= 1
    ensures forall j :: 0 <= j < |Batches(data, b)| - 1 ==> |Batches(data, b)[j]| == b
    ensures |Batches(data, b)| > 0 ==> 1 <= |Batches(data, b)[|Batches(data, b)| - 1]| <= b
    ensures |Batches(data, b)| == 0 <==> data == []
  {
    var bs := Batches(data, b);
    forall j | 0 <= j < |bs| - 1 ensures |bs[j]| == b {
      BatchAt(data, b, j);
      BatchAt(data, b, j + 1);
      assert (j + 1) * b < |data|;
    }
    if |bs| > 0 {
      BatchAt(data, b, |bs| - 1);
    }
  }

  /** `_process_batch_sync`: entry t of the batch goes out as call `base + t`. */
  method ProcessBatch(svc: Services, batch: seq<Record>, cfg: ProcessingRequest, base: nat)
    returns (processed: seq<Record>)
    ensures processed == EnrichFrom(svc, cfg, base, batch)
  {
    var systemPrompt := Prompts.SystemPrompt(TaskValue(cfg.task));
    var modelName := ModelName(cfg.llmModel);
    processed := [];
    var i := 0;
    while i < |batch|
      invariant 0 <= i <= |batch|
      invariant processed == EnrichFrom(svc, cfg, base, batch[..i])
    {
      var item := batch[i];
      var result := SingleItem(svc, base + i, item, systemPrompt, modelName);
      var row: Record;
      if result.Done? {
        row := Set(Set(item, "llm_result", result.value), "error", Null);
      } else {
        var errorMsg := ItemErrorPrefix + result.message;
        row := Set(Set(item, "llm_result", Null), "error", Str(errorMsg));
      }
      assert row == Enricher(svc, cfg)(base + i, item);
      IndexedNext(Enricher(svc, cfg), base, batch, i, processed);
      processed := processed + [row];
      i := i + 1;
    }
    assert batch[..|batch|] == batch;
  }

  /** The first batch of non-empty rows is the first `b` of them (or all). */
  lemma BatchesUnfold<T>(rest: seq<T>, b: int)
    requires b >= 1 && rest != []
    ensures Batches(rest, b) == [rest[..Min(b, |rest|)]] + Batches(rest[Min(b, |rest|)..], b)
  {
  }

  /** One turn of the batch loop takes the next batch off the remaining rows. */
  lemma NextBatch<T>(data: seq<T>, b: int, i: int, batches: seq<seq<T>>)
    requires b >= 1 && 0 <= i < |data|
    requires batches + Batches(data[i..], b) == Batches(data, b)
    ensures (batches + [data[i..Min(i + b, |data|)]]) + Batches(data[Min(i + b, |data|)..], b) == Batches(data, b)
  {
    var end := Min(i + b, |data|);
    var rest := data[i..];
    BatchesUnfold(rest, b);
    assert rest[..Min(b, |rest|)] == data[i..end];
    assert rest[Min(b, |rest|)..] == data[end..];
  }

  /** The loop of `process_batch_sync`: batch after batch, call ordinals
      running on across batches, a pause after every batch but the last. The
      ghost outputs are the batches formed and the pauses taken. */
  method RunBatches(svc: Services, cfg: ProcessingRequest, data: seq<Record>)
    returns (results: seq<Record>, ghost batches: seq<seq<Record>>, ghost pauses: nat)
    requires data != []
    ensures results == EnrichFrom(svc, cfg, 0, data)
    ensures batches == Batches(data, BatchSizeOf(cfg))
    ensures pauses == |batches| - 1
  {
    var b := BatchSizeOf(cfg);
    var n := |data|;
    results, batches, pauses := [], [], 0;
    var i := 0;
    while i < n
      invariant 0 <= i <= n
      invariant batches + Batches(data[i..], b) == Batches(data, b)
      invariant pauses == if i < n then |batches| else |batches| - 1
      invariant results == EnrichFrom(svc, cfg, 0, data[..i])
    {
      var end := Min(i + b, n);
      var batch := data[i..end];
      NextBatch(data, b, i, batches);
      var batchResults := ProcessBatch(svc, batch, cfg, i);
      IndexedNextSlice(Enricher(svc, cfg), data, i, end, results, batchResults);
      results := results + batchResults;
      batches := batches + [batch];
      if i + b < n {
        pauses := pauses + 1;
      }
      i := end;
    }
    assert data[n..] == [] && data[..n] == data;
  }

  /** `process_batch_sync`. The ghost outputs are the batches formed and the
      number of pauses taken between them. */
  method ProcessBatchSync(svc: Services, state: AgentState)
    returns (out: AgentState, ghost batches: seq<seq<Record>>, ghost pauses: nat)
    ensures out == Enriched(svc, state)
    ensures Runs(state) ==> batches == Batches(state.processedData.value, BatchSizeOf(state.taskConfig.value))
    ensures !Runs(state) ==> batches == []
    ensures pauses == if batches == [] then 0 else |batches| - 1
  {
    if !Runs(state) {
      return state, [], 0;
    }
    var cfg := state.taskConfig.value;
    var results;
    results, batches, pauses := RunBatches(svc, cfg, state.processedData.value);
    out := AgentState(state.filePath, state.data, state.processedData, state.taskConfig, Some(results), None,
                      state.metadata["llm_model" := Model(cfg.llmModel)]["task_type" := Task(cfg.task)]
                                    ["results_count" := Count(|results|)]);
  }

  /** One below the batch count is ceil(N/B) - 1 and never negative; with
      `RunBatches`' pause counter this is the number of pauses. */
  lemma PauseCount(data: seq<Record>, b: int)
    requires b >= 1 && data != []
    ensures |Batches(data, b)| - 1 == (|data| + b - 1) / b - 1 >= 0
  {
    BatchCount(data, b);
    BatchSizes(data, b);
  }

  /** A stage that does not run hands the state on unchanged. */
  lemma EnrichPassesThrough(svc: Services, state: AgentState)
    requires HasError(state) || !NonEmpty(state.processedData) || state.taskConfig.None?
    ensures Enriched(svc, state) == state
  {
  }

  /** When it runs, the stage keeps the file path, the rows and the request,
      clears the error, yields one result per processed row in row order, and
      records the model, the task and the result count. */
  lemma EnrichSuccess(svc: Services, state: AgentState)
    requires Runs(state)
    ensures var s, cfg, data := Enriched(svc, state), state.taskConfig.value, state.processedData.value;
      && s.filePath == state.filePath && s.data == state.data && s.processedData == state.processedData
      && s.taskConfig == state.taskConfig && s.error.None?
      && s.results.Some? && |s.results.value| == |data|
      && (forall k :: 0 <= k < |data| ==>
            s.results.value[k] == EnrichItem(svc, k, data[k], Prompts.SystemPrompt(TaskValue(cfg.task)), ModelName(cfg.llmModel)))
      && s.metadata["llm_model"] == Model(cfg.llmModel) && s.metadata["task_type"] == Task(cfg.task)
      && s.metadata["results_count"] == Count(|data|)
      && forall key :: key in state.metadata && key !in {"llm_model", "task_type", "results_count"} ==>
           s.metadata[key] == state.metadata[key]
  {
  }

  /** An enriched row keeps all other fields of its item; `llm_result` holds
      the parsed reply and `error` None, or `llm_result` None and `error` the
      wrapped message when the call raised. Item columns of the same names
      are overridden. */
  lemma EnrichItemFields(svc: Services, k: nat, item: Record, sp: string, mn: string)
    ensures var r, o := EnrichItem(svc, k, item, sp, mn), SingleItem(svc, k, item, sp, mn);
      && (o.Done? ==> Get(r, "llm_result") == Some(o.value) && Get(r, "error") == Some(Null))
      && (o.Raised? ==> Get(r, "llm_result") == Some(Null)
                        && Get(r, "error") == Some(Str(ItemErrorPrefix + o.message)))
      && (forall key :: key != "llm_result" && key != "error" ==> Get(r, key) == Get(item, key))
      && (UniqueKeys(item) ==> UniqueKeys(r))
  {
    var o := SingleItem(svc, k, item, sp, mn);
    var v := if o.Done? then o.value else Null;
    var e := if o.Done? then Null else Str(ItemErrorPrefix + o.message);
    SetKeys(item, "llm_result", v);
    SetKeys(Set(item, "llm_result", v), "error", e);
    SetFrame(item, "llm_result", v);
    SetFrame(Set(item, "llm_result", v), "error", e);
  }

  /** A reply that is not JSON is kept whole under `raw_response`. */
  lemma RawResponseFallback(svc: Services, k: nat, item: Record, sp: string, mn: string)
    requires svc.complete(k, mn, sp, Prompts.UserPrompt(svc, item)).Content?
    requires svc.parseJson(svc.complete(k, mn, sp, Prompts.UserPrompt(svc, item)).text).None?
    ensures Get(EnrichItem(svc, k, item, sp, mn), "llm_result")
            == Some(Dict([("raw_response", Str(svc.complete(k, mn, sp, Prompts.UserPrompt(svc, item)).text))]))
    ensures Get(EnrichItem(svc, k, item, sp, mn), "error") == Some(Null)
  {
    EnrichItemFields(svc, k, item, sp, mn);
  }

  /** A failed call, or a reply without content, becomes a row error. */
  lemma FailedCallIsRowError(svc: Services, k: nat, item: Record, sp: string, mn: string)
    requires !svc.complete(k, mn, sp, Prompts.UserPrompt(svc, item)).Content?
    ensures var reply := svc.complete(k, mn, sp, Prompts.UserPrompt(svc, item));
      var detail := if reply.Failure? then reply.message else NoContentMessage;
      && Get(EnrichItem(svc, k, item, sp, mn), "llm_result") == Some(Null)
      && Get(EnrichItem(svc, k, item, sp, mn), "error") == Some(Str(ItemErrorPrefix + (ApiErrorPrefix + detail)))
  {
    EnrichItemFields(svc, k, item, sp, mn);
  }

  /** A failing call affects only its own row: when two runs' services differ
      only in the reply to call i, every other result is the same. */
  lemma FailureIsolation(svc: Services, other: Services, state: AgentState, i: nat)
    requires Runs(state)
    requires other.parseJson == svc.parseJson && other.dumpsJson == svc.dumpsJson
    requires other.showContainer == svc.showContainer
    requires forall k, m, s, u :: k != i ==> other.complete(k, m, s, u) == svc.complete(k, m, s, u)
    ensures |Enriched(other, state).results.value| == |Enriched(svc, state).results.value|
    ensures forall k :: 0 <= k < |state.processedData.value| && k != i ==>
      Enriched(other, state).results.value[k] == Enriched(svc, state).results.value[k]
  {
    var data := state.processedData.value;
    forall item: Record ensures Prompts.UserPrompt(other, item) == Prompts.UserPrompt(svc, item) {
      forall key ensures Prompts.FieldText(other, item, key) == Prompts.FieldText(svc, item, key) {
      }
    }
  }
}
