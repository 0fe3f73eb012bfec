/** Prompt selection and templating. The instruction texts themselves are
    opaque constants here: only which one is chosen matters to the pipeline. */
module Prompts {
  import opened PyValues
  import opened Foreign
  import Schemas

  const AttributeExtractionPrompt: string := "<system prompt: attribute extraction>"
  const SalesFaqPrompt: string := "<system prompt: sales FAQ>"
  const DataQaPrompt: string := "<system prompt: data quality review>"
  const ContentEnrichmentPrompt: string := "<system prompt: content enrichment>"
  const CategoryClassificationPrompt: string := "<system prompt: category classification>"

  /** `SYSTEM_PROMPTS`, keyed by task value. */
  const SystemPrompts: map<string, string> := map[
    "attribute_extraction" := AttributeExtractionPrompt,
    "sales_faq" := SalesFaqPrompt,
    "data_qa" := DataQaPrompt,
    "content_enrichment" := ContentEnrichmentPrompt,
    "category_classification" := CategoryClassificationPrompt]

  /** `get_system_prompt`: the task's prompt, or the attribute-extraction
      prompt for a task with no entry. */
  function SystemPrompt(task: string): (p: string)
    ensures task in SystemPrompts ==> p == SystemPrompts[task]
    ensures task !in SystemPrompts ==> p == AttributeExtractionPrompt
  {
    if task in SystemPrompts then SystemPrompts[task] else SystemPrompts["attribute_extraction"]
  }

  /** The table's keys are exactly the task values, and every task gets a
      prompt of its own, so the default of `SystemPrompt` is never taken for
      a task value. */
  lemma SystemPromptPerTask()
    ensures SystemPrompts.Keys == Schemas.TaskValues
    ensures forall t :: Schemas.TaskValue(t) in SystemPrompts
    ensures forall t, u :: SystemPrompt(Schemas.TaskValue(t)) == SystemPrompt(Schemas.TaskValue(u)) ==> t == u
  {
  }

  /** The four record fields the user prompt reads. */
  const PromptFields: seq<string> :=
    ["PRODUCT_ID", "PRODUCT_NAME", "PRODUCT_DESCRIPTION", "PRODUCT_ATTRIBUTES"]

  /** `product_data.get(key, "N/A")` as `format` renders it. */
  function FieldText(svc: Services, item: Record, key: string): string
  {
    match Get(item, key)
    case None => "N/A"
    case Some(v) => ToStr(svc, v)
  }

  const PromptHead: string := "\nProduct Information:\n- ID: "
  const NameLabel: string := "\n- Name: "
  const DescriptionLabel: string := "\n- Description: "
  const AttributesLabel: string := "\n- Attributes: "
  const PromptTail: string :=
    "\n\nPlease analyze this product and provide the requested information in the specified JSON format.\n"

  /** `get_user_prompt`: `USER_PROMPT_TEMPLATE` with the four fields filled in. */
  function UserPrompt(svc: Services, item: Record): string
  {
    PromptHead + FieldText(svc, item, "PRODUCT_ID")
    + NameLabel + FieldText(svc, item, "PRODUCT_NAME")
    + DescriptionLabel + FieldText(svc, item, "PRODUCT_DESCRIPTION")
    + AttributesLabel + FieldText(svc, item, "PRODUCT_ATTRIBUTES")
    + PromptTail
  }

  /** Only the four prompt fields affect the prompt. */
  lemma UserPromptReadsOnlyPromptFields(svc: Services, a: Record, b: Record)
    requires forall k :: k in PromptFields ==> Get(a, k) == Get(b, k)
    ensures UserPrompt(svc, a) == UserPrompt(svc, b)
  {
    assert forall i :: 0 <= i < 4 ==> Get(a, PromptFields[i]) == Get(b, PromptFields[i]);
  }

  function PromptLength(svc: Services, item: Record): nat
  {
    |PromptHead| + |NameLabel| + |DescriptionLabel| + |AttributesLabel| + |PromptTail|
    + |FieldText(svc, item, "PRODUCT_ID")| + |FieldText(svc, item, "PRODUCT_NAME")|
    + |FieldText(svc, item, "PRODUCT_DESCRIPTION")| + |FieldText(svc, item, "PRODUCT_ATTRIBUTES")|
  }

  /** A helper for `EmptyFieldIsNotNA`: the prompt's length is the sum of its
      pieces' lengths. */
  lemma UserPromptLength(svc: Services, item: Record)
    ensures |UserPrompt(svc, item)| == PromptLength(svc, item)
  {
  }

  /** An absent prompt field is rendered as "N/A", exactly as if it held that
      text. */
  lemma AbsentFieldIsNA(svc: Services, item: Record, key: string)
    requires key in PromptFields
    requires Get(item, key).None?
    ensures UserPrompt(svc, item) == UserPrompt(svc, Set(item, key, Str("N/A")))
  {
    var na := Set(item, key, Str("N/A"));
    SetFrame(item, key, Str("N/A"));
    SameFieldTexts(svc, item, na, key);
    assert FieldText(svc, na, key) == "N/A";
  }

  /** A prompt field that is present but empty, as cleaning leaves a missing
      cell, is inserted as the empty text, not replaced by "N/A". */
  lemma EmptyFieldIsNotNA(svc: Services, item: Record, key: string)
    requires key in PromptFields
    requires Get(item, key).None?
    ensures UserPrompt(svc, item) != UserPrompt(svc, Set(item, key, Str("")))
  {
    var empty := Set(item, key, Str(""));
    SetFrame(item, key, Str(""));
    SameFieldTexts(svc, item, empty, key);
    assert FieldText(svc, empty, key) == "";
    UserPromptLength(svc, item);
    UserPromptLength(svc, empty);
    assert PromptLength(svc, empty) + 3 == PromptLength(svc, item);
  }

  /** Records that agree on every prompt field but `key` render those fields alike. */
  lemma SameFieldTexts(svc: Services, a: Record, b: Record, key: string)
    requires forall k :: k != key ==> Get(a, k) == Get(b, k)
    ensures forall k :: k in PromptFields && k != key ==> FieldText(svc, a, k) == FieldText(svc, b, k)
  {
  }
}
