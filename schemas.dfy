/** The request and state records shared by the stages: the three enums, the
    validated processing request with its defaults, and the agent state every
    stage receives and returns. */
module Schemas {
  import opened PyValues

  datatype TaskType =
    | AttributeExtraction
    | SalesFaq
    | DataQa
    | ContentEnrichment
    | CategoryClassification

  datatype ProcessingMode = Batch | ProductIdLookup

  datatype LLMModel = Gpt35Turbo | Gpt4oMini | Gpt4o

  /** `TaskType.value` */
  function TaskValue(t: TaskType): string
  {
    match t
    case AttributeExtraction => "attribute_extraction"
    case SalesFaq => "sales_faq"
    case DataQa => "data_qa"
    case ContentEnrichment => "content_enrichment"
    case CategoryClassification => "category_classification"
  }

  function ModeValue(m: ProcessingMode): string
  {
    match m
    case Batch => "batch"
    case ProductIdLookup => "product_id_lookup"
  }

  function ModelValue(m: LLMModel): string
  {
    match m
    case Gpt35Turbo => "gpt-3.5-turbo"
    case Gpt4oMini => "gpt-4o-mini"
    case Gpt4o => "gpt-4o"
  }

  const TaskValues: set<string> :=
    {"attribute_extraction", "sales_faq", "data_qa", "content_enrichment", "category_classification"}
  const ModeValues: set<string> := {"batch", "product_id_lookup"}
  const ModelValues: set<string> := {"gpt-3.5-turbo", "gpt-4o-mini", "gpt-4o"}

  /** Enum validation of a task string: only the five values are accepted. */
  function ParseTask(s: string): (r: Option<TaskType>)
    ensures r.Some? <==> s in TaskValues
    ensures r.Some? ==> TaskValue(r.value) == s
  {
    if s == "attribute_extraction" then Some(AttributeExtraction)
    else if s == "sales_faq" then Some(SalesFaq)
    else if s == "data_qa" then Some(DataQa)
    else if s == "content_enrichment" then Some(ContentEnrichment)
    else if s == "category_classification" then Some(CategoryClassification)
    else None
  }

  function ParseMode(s: string): (r: Option<ProcessingMode>)
    ensures r.Some? <==> s in ModeValues
    ensures r.Some? ==> ModeValue(r.value) == s
  {
    if s == "batch" then Some(Batch)
    else if s == "product_id_lookup" then Some(ProductIdLookup)
    else None
  }

  function ParseModel(s: string): (r: Option<LLMModel>)
    ensures r.Some? <==> s in ModelValues
    ensures r.Some? ==> ModelValue(r.value) == s
  {
    if s == "gpt-3.5-turbo" then Some(Gpt35Turbo)
    else if s == "gpt-4o-mini" then Some(Gpt4oMini)
    else if s == "gpt-4o" then Some(Gpt4o)
    else None
  }

  /** TaskType has exactly five values, each with its own string, and parsing
      inverts `.value`. */
  lemma TaskTypeValues()
    ensures |TaskValues| == 5
    ensures forall t :: TaskValue(t) in TaskValues && ParseTask(TaskValue(t)) == Some(t)
    ensures forall t, u :: TaskValue(t) == TaskValue(u) ==> t == u
  {
    assert "attribute_extraction" != "sales_faq";
  }

  /** ProcessingMode has exactly two values and LLMModel exactly three. */
  lemma ModeAndModelValues()
    ensures |ModeValues| == 2 && |ModelValues| == 3
    ensures forall m :: ParseMode(ModeValue(m)) == Some(m)
    ensures forall m :: ParseModel(ModelValue(m)) == Some(m)
  {
  }

  /** The batch-size field is bounded by the request schema to [1, 100]. */
  type BatchSize = b: int | 1 <= b <= 100 witness 10

  const DefaultBatchSize: BatchSize := 10

  datatype ProcessingRequest = ProcessingRequest(
    fileId: string,
    task: TaskType,
    mode: ProcessingMode,
    llmModel: LLMModel,
    batchSize: Option<BatchSize>,
    productIds: Option<seq<string>>,
    rowRange: Option<map<string, int>>,
    customPrompt: Option<string>)

  /** A keyword argument to the request constructor: left out, or given. */
  datatype Arg<T> = Omitted | Given(value: T)

  datatype Validated = Valid(request: ProcessingRequest) | Invalid(fields: set<string>)

  function EnumField<E>(a: Arg<string>, parse: string -> Option<E>, required: bool): Option<Option<E>>
  {
    match a
    case Omitted => if required then None else Some(None)
    case Given(s) => if parse(s).Some? then Some(parse(s)) else None
  }

  function InvalidFields(fileId: Arg<string>, task: Arg<string>, mode: Arg<string>,
                         llmModel: Arg<string>, batchSize: Arg<Option<int>>): set<string>
  {
    (if fileId.Omitted? then {"file_id"} else {})
    + (if EnumField(task, ParseTask, true).None? then {"task"} else {})
    + (if EnumField(mode, ParseMode, true).None? then {"mode"} else {})
    + (if EnumField(llmModel, ParseModel, false).None? then {"llm_model"} else {})
    + (if batchSize.Given? && batchSize.value.Some? && !(1 <= batchSize.value.value <= 100)
       then {"batch_size"} else {})
  }

  /** Building a ProcessingRequest from keyword arguments, as the schema
      validates it: every invalid field is reported, the rest take defaults. */
  function NewRequest(fileId: Arg<string>, task: Arg<string>, mode: Arg<string>,
                      llmModel: Arg<string>, batchSize: Arg<Option<int>>,
                      productIds: Arg<Option<seq<string>>>, rowRange: Arg<Option<map<string, int>>>,
                      customPrompt: Arg<Option<string>>): Validated
  {
    var bad := InvalidFields(fileId, task, mode, llmModel, batchSize);
    if bad != {} then Invalid(bad)
    else
      Valid(ProcessingRequest(
        fileId.value,
        ParseTask(task.value).value,
        ParseMode(mode.value).value,
        if llmModel.Given? then ParseModel(llmModel.value).value else Gpt35Turbo,
        match batchSize
        case Omitted => Some(DefaultBatchSize)
        case Given(None) => None
        case Given(Some(b)) => Some(b as BatchSize),
        if productIds.Given? then productIds.value else None,
        if rowRange.Given? then rowRange.value else None,
        if customPrompt.Given? then customPrompt.value else None))
  }

  /** With only the required fields given, the model is gpt-3.5-turbo, the
      batch size 10, and the ID list, row range and custom prompt are None. */
  lemma RequestDefaults(fileId: string, t: TaskType, m: ProcessingMode)
    ensures NewRequest(Given(fileId), Given(TaskValue(t)), Given(ModeValue(m)), Omitted, Omitted,
                       Omitted, Omitted, Omitted)
            == Valid(ProcessingRequest(fileId, t, m, Gpt35Turbo, Some(10), None, None, None))
  {
    TaskTypeValues();
    ModeAndModelValues();
  }

  /** `task` and `mode` are required. */
  lemma TaskAndModeRequired(fileId: Arg<string>, task: Arg<string>, mode: Arg<string>,
                            llmModel: Arg<string>, batchSize: Arg<Option<int>>,
                            productIds: Arg<Option<seq<string>>>, rowRange: Arg<Option<map<string, int>>>,
                            customPrompt: Arg<Option<string>>)
    requires task.Omitted? || mode.Omitted?
    ensures var r := NewRequest(fileId, task, mode, llmModel, batchSize, productIds, rowRange, customPrompt);
            r.Invalid? && (task.Omitted? ==> "task" in r.fields) && (mode.Omitted? ==> "mode" in r.fields)
  {
  }

  /** An explicit batch size is accepted exactly when 1 <= b <= 100 (other
      fields being valid), and an explicit None is kept. */
  lemma BatchSizeBounds(fileId: string, t: TaskType, m: ProcessingMode, b: Option<int>)
    ensures var r := NewRequest(Given(fileId), Given(TaskValue(t)), Given(ModeValue(m)), Omitted,
                                Given(b), Omitted, Omitted, Omitted);
            (r.Valid? <==> (b.None? || 1 <= b.value <= 100))
            && (r.Valid? ==> r.request.batchSize == b)
  {
    TaskTypeValues();
    ModeAndModelValues();
  }

  /** A metadata entry. The stages store counts, the product index, texts,
      enum values and the run summary. */
  datatype Meta =
    | Count(n: int)
    | Columns(names: seq<string>)
    | ProductIndex(index: map<string, int>)
    | Text(text: string)
    | Model(model: LLMModel)
    | Task(task: TaskType)
    | Summary(total: int, successful: int, failed: int, successRate: real)

  /** The state passed from stage to stage. */
  datatype AgentState = AgentState(
    filePath: Option<string>,
    data: Option<seq<Record>>,
    processedData: Option<seq<Record>>,
    taskConfig: Option<ProcessingRequest>,
    results: Option<seq<Record>>,
    error: Option<string>,
    metadata: map<string, Meta>)

  /** `AgentState()`: every field None, metadata empty. */
  function NewState(): (s: AgentState)
    ensures s.filePath.None? && s.data.None? && s.processedData.None? && s.taskConfig.None?
    ensures s.results.None? && s.error.None? && s.metadata == map[]
  {
    AgentState(None, None, None, None, None, None, map[])
  }

  /** `if state.error:` -- an empty error string reads as no error. */
  predicate HasError(s: AgentState)
  {
    s.error.Some? && s.error.value != ""
  }

  /** Truthiness of an optional list of records. */
  predicate NonEmpty(rows: Option<seq<Record>>)
  {
    rows.Some? && |rows.value| > 0
  }

  /** The message of the TypeError raised by `AgentState(**state.dict(), error=...)`:
      `state.dict()` already holds an `error` key. */
  const DuplicateErrorKeyword: string :=
    "models.schemas.AgentState() got multiple values for keyword argument 'error'"
}
