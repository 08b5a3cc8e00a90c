/**
 * The per-record helpers of the upstream payload normaliser
 * (`src/lib/dataService.ts`): an upstream record as the `ApiModel`
 * interface describes it, the vendor guess from its id, the keyword
 * classifiers for category and capability tier, and the extraction of
 * pricing and parameters through chains of alias fields.
 *
 * A `||` chain picks the first truthy alternative, so `0`, `''`, `false`
 * and a missing field all count as absent. `parseFloat`, `parseInt` and
 * the `Date` conversions are not modelled digit by digit: they are the
 * functions of a `Parsers` value, where `None` stands for `NaN` or an
 * invalid date.
 */
module Upstream {
  import opened Wrappers
  import opened Types
  import Text

  /** A field declared `string | number`. */
  datatype Scalar = StringValue(s: string) | NumberValue(n: real)

  predicate TruthyScalar(v: Option<Scalar>) {
    v.Some? && match v.value
               case StringValue(s) => s != ""
               case NumberValue(n) => n != 0.0
  }

  predicate TruthyText(v: Option<string>) {
    v.Some? && v.value != ""
  }

  predicate IsTrue(b: Option<bool>) {
    b == Some(true)
  }

  /** `a || b || …` over optional scalars: the first truthy one, or `None`
      when all are falsy. */
  function FirstScalar(vs: seq<Option<Scalar>>): (r: Option<Scalar>)
    ensures r.Some? ==> exists i :: (0 <= i < |vs| && vs[i] == r && TruthyScalar(vs[i])
                                     && forall j :: 0 <= j < i ==> !TruthyScalar(vs[j]))
    ensures r.None? <==> forall i :: 0 <= i < |vs| ==> !TruthyScalar(vs[i])
  {
    if vs == [] then None
    else if TruthyScalar(vs[0]) then vs[0]
    else
      var r := FirstScalar(vs[1..]);
      assert forall j :: 0 <= j < |vs| - 1 ==> vs[1..][j] == vs[j + 1];
      r
  }

  /** The same for optional strings. */
  function FirstText(vs: seq<Option<string>>): (r: Option<string>)
    ensures r.Some? ==> exists i :: (0 <= i < |vs| && vs[i] == r && TruthyText(vs[i])
                                     && forall j :: 0 <= j < i ==> !TruthyText(vs[j]))
    ensures r.None? <==> forall i :: 0 <= i < |vs| ==> !TruthyText(vs[i])
  {
    if vs == [] then None
    else if TruthyText(vs[0]) then vs[0]
    else
      var r := FirstText(vs[1..]);
      assert forall j :: 0 <= j < |vs| - 1 ==> vs[1..][j] == vs[j + 1];
      r
  }

  /** `(s || '')`. */
  function OrEmpty(s: Option<string>): string {
    if s.Some? then s.value else ""
  }

  datatype ApiPricing = ApiPricing(
    prompt: Option<Scalar>,
    completion: Option<Scalar>,
    input: Option<Scalar>,
    output: Option<Scalar>,
    inputText: Option<Scalar>,
    outputText: Option<Scalar>,
    finetuningInput: Option<Scalar>,
    finetuningOutput: Option<Scalar>,
    fine_tuning_input: Option<Scalar>,
    fine_tuning_output: Option<Scalar>,
    trainingCost: Option<Scalar>,
    training_cost: Option<Scalar>)

  /** An upstream record, restricted to the fields the normaliser reads.
      `topProviderMaxTokens` is `top_provider?.max_completion_tokens` and
      `architectureModality` is `architecture?.modality`. */
  datatype ApiModel = ApiModel(
    id: Option<string>,
    name: Option<string>,
    display_name: Option<string>,
    description: Option<string>,
    desc: Option<string>,
    parameters: Option<Scalar>,
    parametersB: Option<Scalar>,
    params: Option<Scalar>,
    context_length: Option<Scalar>,
    contextWindow: Option<Scalar>,
    max_context: Option<Scalar>,
    context_size: Option<Scalar>,
    topProviderMaxTokens: Option<Scalar>,
    max_tokens: Option<Scalar>,
    tokenLimit: Option<Scalar>,
    output_limit: Option<Scalar>,
    created: Option<Scalar>,
    releaseDate: Option<string>,
    precision: Option<string>,
    isOpenSource: Option<bool>,
    open_source: Option<bool>,
    isHidden: Option<bool>,
    hidden: Option<bool>,
    architectureModality: Option<string>,
    modality: Option<string>,
    pricing: Option<ApiPricing>)

  /** The runtime's number and date parsing. `parseFloat` and `parseInt`
      read a text (`None` for `NaN`); `dayOfTime` and `dayOfText` are
      `new Date(x).toISOString().split('T')[0]` for a time in milliseconds
      and for a date text (`None` where `toISOString` throws). */
  datatype Parsers = Parsers(
    parseFloat: string -> Option<real>,
    parseInt: string -> Option<int>,
    dayOfTime: real -> Option<string>,
    dayOfText: string -> Option<string>)

  /** Truncation toward zero. */
  function Trunc(x: real): (r: int)
    ensures x >= 0.0 ==> r as real <= x < r as real + 1.0
    ensures x < 0.0 ==> r as real - 1.0 < x <= r as real
  {
    if x >= 0.0 then x.Floor else -((-x).Floor)
  }

  /** `parseFloat(v.toString())`: a number reads back as itself. */
  function FloatOf(p: Parsers, v: Scalar): Option<real> {
    match v
    case StringValue(s) => p.parseFloat(s)
    case NumberValue(n) => Some(n)
  }

  /** `parseInt(v.toString())`: a number is truncated. */
  function IntOf(p: Parsers, v: Scalar): Option<int> {
    match v
    case StringValue(s) => p.parseInt(s)
    case NumberValue(n) => Some(Trunc(n))
  }

  // ------------------------------------------------------------ vendor guess

  datatype VendorInfo = VendorInfo(name: string, key: string)

  const Separators: seq<char> := ['/', ':', '-']
  const CommonVendors: seq<string> :=
    ["openai", "anthropic", "google", "meta", "microsoft", "cohere", "deepseek", "mistral", "qwen"]
  const UnknownVendor: string := "Unknown"

  /** The first of `seps` that occurs in `id`. */
  function SeparatorIn(seps: seq<char>, id: string): (r: Option<char>)
    ensures r.Some? ==> exists k :: (0 <= k < |seps| && seps[k] == r.value && r.value in id
                                     && forall j :: 0 <= j < k ==> seps[j] !in id)
    ensures r.None? <==> forall k :: 0 <= k < |seps| ==> seps[k] !in id
  {
    if seps == [] then None
    else if seps[0] in id then Some(seps[0])
    else
      var r := SeparatorIn(seps[1..], id);
      assert forall j :: 0 <= j < |seps| - 1 ==> seps[1..][j] == seps[j + 1];
      r
  }

  /** `words.find(w => text.includes(w))`. */
  function FindWord(words: seq<string>, text: string): (r: Option<string>)
    ensures r.Some? ==> exists k :: (0 <= k < |words| && words[k] == r.value && Text.Contains(text, r.value)
                                     && forall j :: 0 <= j < k ==> !Text.Contains(text, words[j]))
    ensures r.None? <==> forall k :: 0 <= k < |words| ==> !Text.Contains(text, words[k])
  {
    if words == [] then None
    else if Text.Contains(text, words[0]) then Some(words[0])
    else
      var r := FindWord(words[1..], text);
      assert forall j :: 0 <= j < |words| - 1 ==> words[1..][j] == words[j + 1];
      r
  }

  /** The vendor name before capitalisation. The keyword search is reached
      only with a non-empty id that holds no separator (or whose first
      segment is literally `Unknown`). */
  function RawVendorName(modelId: Option<string>, modelName: Option<string>): string {
    if !TruthyText(modelId) then UnknownVendor
    else
      var fromId := match SeparatorIn(Separators, modelId.value)
                    case Some(sep) => Text.BeforeFirst(modelId.value, sep)
                    case None => UnknownVendor;
      if fromId == UnknownVendor && TruthyText(modelName) then
        match FindWord(CommonVendors, Text.Lower(modelName.value))
        case Some(w) => w
        case None => UnknownVendor
      else fromId
  }

  /** `s.charAt(0).toUpperCase() + s.slice(1)`. */
  function Capitalize(s: string): (r: string)
    ensures |r| == |s|
    ensures Text.Lower(r) == Text.Lower(s)
    ensures s == [] ==> r == []
    ensures s != [] ==> r[0] == Text.UpperChar(s[0]) && r[1..] == s[1..]
  {
    if s == [] then []
    else
      assert Text.Lower([Text.UpperChar(s[0])] + s[1..])[0] == Text.Lower(s)[0];
      [Text.UpperChar(s[0])] + s[1..]
  }

  /** The result of `extractVendorInfo`: its key is always the lower case
      of its name. */
  function VendorInfoOf(modelId: Option<string>, modelName: Option<string>): (r: VendorInfo)
    ensures r.key == Text.Lower(r.name)
  {
    var v := RawVendorName(modelId, modelName);
    VendorInfo(Capitalize(v), Text.Lower(v))
  }

  /** `extractVendorInfo`: the separator loop breaks at the first separator
      found. */
  method ExtractVendorInfo(modelId: Option<string>, modelName: Option<string>) returns (r: VendorInfo)
    ensures r == VendorInfoOf(modelId, modelName)
  {
    var vendorName := UnknownVendor;
    if TruthyText(modelId) {
      var id := modelId.value;
      var i := 0;
      while i < |Separators|
        invariant 0 <= i <= |Separators|
        invariant vendorName == UnknownVendor
        invariant SeparatorIn(Separators, id) == SeparatorIn(Separators[i..], id)
      {
        if Separators[i] in id {
          vendorName := Text.BeforeFirst(id, Separators[i]);
          break;
        }
        assert Separators[i..][1..] == Separators[i + 1..];
        i := i + 1;
      }
      if vendorName == UnknownVendor && TruthyText(modelName) {
        var lowerName := Text.Lower(modelName.value);
        var found := FindWord(CommonVendors, lowerName);
        if found.Some? {
          vendorName := found.value;
        }
      }
    }
    return VendorInfo(Capitalize(vendorName), Text.Lower(vendorName));
  }

  /** Without a non-empty id the vendor is `Unknown`, whatever the name. */
  lemma EmptyIdIsUnknown(modelId: Option<string>, modelName: Option<string>)
    requires !TruthyText(modelId)
    ensures VendorInfoOf(modelId, modelName) == VendorInfo("Unknown", "unknown")
  {
    assert RawVendorName(modelId, modelName) == UnknownVendor;
    assert Text.Lower(UnknownVendor) == "unknown";
  }

  /** The first separator by priority that occurs in the id splits it at
      its first occurrence. */
  lemma SeparatorDecides(id: string, modelName: Option<string>, k: nat)
    requires id != "" && k < |Separators| && Separators[k] in id
    requires forall j :: 0 <= j < k ==> Separators[j] !in id
    requires Text.BeforeFirst(id, Separators[k]) != UnknownVendor
    ensures RawVendorName(Some(id), modelName) == Text.BeforeFirst(id, Separators[k])
  {
    var r := SeparatorIn(Separators, id);
    var k' :| 0 <= k' < |Separators| && Separators[k'] == r.value && r.value in id
              && forall j :: 0 <= j < k' ==> Separators[j] !in id;
    assert k' == k;
  }

  /** Only an id without any separator sends the search to the name. */
  lemma KeywordsOnlyWithoutSeparator(id: string, modelName: Option<string>)
    requires id != "" && forall k :: 0 <= k < |Separators| ==> Separators[k] !in id
    ensures RawVendorName(Some(id), modelName) ==
              if TruthyText(modelName) && FindWord(CommonVendors, Text.Lower(modelName.value)).Some?
              then FindWord(CommonVendors, Text.Lower(modelName.value)).value
              else UnknownVendor
  {
  }

  /** OpenRouter's Llama ids start with `meta-llama/`, so their key is
      `meta-llama`, not `meta`. */
  lemma MetaLlamaKey(rest: string, modelName: Option<string>)
    ensures VendorInfoOf(Some(MetaLlama + "/" + rest), modelName).key == MetaLlama
  {
    var id := MetaLlama + "/" + rest;
    assert id[|MetaLlama|] == '/';
    SlashFirst(id);
    BeforeFirstAt(MetaLlama, rest, '/');
    assert RawVendorName(Some(id), modelName) == MetaLlama;
    MetaLlamaLower();
  }

  lemma SlashFirst(id: string)
    requires '/' in id
    ensures SeparatorIn(Separators, id) == Some('/')
  {
    assert Separators[0] == '/';
  }

  lemma MetaLlamaLower()
    ensures Text.Lower(MetaLlama) == MetaLlama
  {
    assert forall i :: 0 <= i < |MetaLlama| ==> !Text.IsUpper(MetaLlama[i]);
  }

  const MetaLlama: string := "meta-llama"

  /** Splitting at a separator that `a` lacks gives `a`. */
  lemma {:induction false} BeforeFirstAt(a: string, rest: string, sep: char)
    requires sep !in a
    ensures Text.BeforeFirst(a + [sep] + rest, sep) == a
  {
    if a != [] {
      assert (a + [sep] + rest)[1..] == a[1..] + [sep] + rest;
      BeforeFirstAt(a[1..], rest, sep);
    }
  }

  // ------------------------------------------------------------ classifiers

  /** `${name} ${description} ${id}` in lower case. */
  function SearchText(api: ApiModel): string {
    Text.Lower(OrEmpty(api.name)) + " " + Text.Lower(OrEmpty(api.description)) + " " + Text.Lower(OrEmpty(api.id))
  }

  /** `patterns.some(p => text.includes(p))`. */
  function AnyOccurs(text: string, patterns: seq<string>): (r: bool)
    ensures r <==> exists k :: 0 <= k < |patterns| && Text.Contains(text, patterns[k])
  {
    if patterns == [] then false
    else
      assert forall j :: 0 <= j < |patterns| - 1 ==> patterns[1..][j] == patterns[j + 1];
      Text.Contains(text, patterns[0]) || AnyOccurs(text, patterns[1..])
  }

  datatype Classification = Classification(name: string, patterns: seq<string>)

  const Classifications: seq<Classification> := [
    Classification("Code Generation", ["code", "coding", "programmer", "developer", "github", "repository", "programming"]),
    Classification("Multimodal", ["vision", "image", "visual", "multimodal", "picture", "photo", "camera", "ocr"]),
    Classification("Reasoning", ["reasoning", "thinking", "logic", "math", "problem", "analysis", "analytical"]),
    Classification("Conversational", ["chat", "conversation", "assistant", "dialogue", "instruct", "helpful"]),
    Classification("Specialized", ["medical", "legal", "financial", "scientific", "research", "domain", "expert"])
  ]

  const GeneralCategory: string := "General"

  /** The index of the first classification with a matching keyword. */
  function FirstClass(text: string, classes: seq<Classification>): (r: int)
    ensures -1 <= r < |classes|
    ensures r >= 0 ==> AnyOccurs(text, classes[r].patterns)
                       && forall j :: 0 <= j < r ==> !AnyOccurs(text, classes[j].patterns)
    ensures r == -1 <==> forall j :: 0 <= j < |classes| ==> !AnyOccurs(text, classes[j].patterns)
  {
    if classes == [] then -1
    else if AnyOccurs(text, classes[0].patterns) then 0
    else
      var r := FirstClass(text, classes[1..]);
      assert forall j :: 0 <= j < |classes| - 1 ==> classes[1..][j] == classes[j + 1];
      if r == -1 then -1 else r + 1
  }

  /** The name of the first entry of `classes` with a matching keyword,
      else `General`. */
  function CategoryIn(text: string, classes: seq<Classification>): (r: string)
    requires forall j :: 0 <= j < |classes| ==> classes[j].name != GeneralCategory
    ensures r == GeneralCategory <==> forall j :: 0 <= j < |classes| ==> !AnyOccurs(text, classes[j].patterns)
    ensures r != GeneralCategory ==>
              exists k :: (0 <= k < |classes| && classes[k].name == r
                           && AnyOccurs(text, classes[k].patterns)
                           && forall j :: 0 <= j < k ==> !AnyOccurs(text, classes[j].patterns))
  {
    var k := FirstClass(text, classes);
    if k < 0 then GeneralCategory else classes[k].name
  }

  /** What `classifyModel` returns for a search text. */
  function CategoryFor(text: string): string {
    CategoryIn(text, Classifications)
  }

  /** `classifyModel`. */
  method ClassifyModel(api: ApiModel) returns (name: string)
    ensures name == CategoryFor(SearchText(api))
  {
    var combined := SearchText(api);
    name := FirstMatchingClass(combined, Classifications);
  }

  /** The classification loop of `classifyModel`, which returns at the
      first match. */
  method FirstMatchingClass(combined: string, classes: seq<Classification>) returns (name: string)
    requires forall j :: 0 <= j < |classes| ==> classes[j].name != GeneralCategory
    ensures name == CategoryIn(combined, classes)
  {
    for k := 0 to |classes|
      invariant forall j :: 0 <= j < k ==> !AnyOccurs(combined, classes[j].patterns)
    {
      if AnyOccurs(combined, classes[k].patterns) {
        assert FirstClass(combined, classes) == k;
        return classes[k].name;
      }
    }
    return GeneralCategory;
  }

  /** The text decides by the table's order: a code keyword wins over a
      vision keyword. */
  lemma CodeBeforeVision(text: string)
    requires Text.Contains(text, "code") && Text.Contains(text, "vision")
    ensures CategoryFor(text) == "Code Generation"
  {
    assert AnyOccurs(text, Classifications[0].patterns) by {
      assert Classifications[0].patterns[0] == "code";
    }
  }

  const FrontierPatterns: seq<string> := [
    "gpt-4o", "gpt-4-turbo", "claude-3.5-sonnet", "claude-3-opus", "gemini-1.5-pro", "gemini-2.0",
    "o1-preview", "o1-mini", "llama-3.1-405b", "llama-3.2-90b", "qwen2.5-72b", "deepseek-v3"]
  const ProductionPatterns: seq<string> := [
    "gpt-3.5-turbo", "claude-3-haiku", "claude-3-sonnet", "gemini-1.5-flash", "gemini-pro",
    "llama-3.1-70b", "llama-3.1-8b", "mistral-large", "mixtral-8x7b", "qwen2.5-32b"]
  const SpecializedPatterns: seq<string> := [
    "code", "medical", "legal", "finance", "embed", "rerank", "vision", "audio", "translation",
    "summarization", "instruct", "finetune", "reasoning", "math", "science"]
  const ExperimentalPatterns: seq<string> := [
    "preview", "beta", "alpha", "experimental", "research", "test", "dev", "unstable",
    "snapshot", "nightly"]

  /** The parameter count the tier uses: the first truthy of `parameters`,
      `parametersB`, `params`, parsed, with `NaN` read as 0. */
  function ParameterCount(api: ApiModel, p: Parsers): real {
    match FirstScalar([api.parameters, api.parametersB, api.params])
    case None => 0.0
    case Some(v) => FloatOf(p, v).GetOr(0.0)
  }

  function ContextAliases(api: ApiModel): seq<Option<Scalar>> {
    [api.context_length, api.contextWindow, api.max_context, api.context_size]
  }

  /** The context window the tier uses, with `NaN` read as 0. */
  function ContextSize(api: ApiModel, p: Parsers): int {
    match FirstScalar(ContextAliases(api))
    case None => 0
    case Some(v) => IntOf(p, v).GetOr(0)
  }

  predicate FrontierSignal(text: string, pc: real, cw: int) {
    AnyOccurs(text, FrontierPatterns) || pc >= 70.0 || cw >= 1000000
  }

  predicate ProductionSignal(text: string, pc: real, cw: int) {
    AnyOccurs(text, ProductionPatterns) || (7.0 <= pc < 70.0) || (32000 <= cw < 1000000)
  }

  /** The tier decision as written, including its last fallbacks. */
  function Tier(text: string, pc: real, cw: int): string {
    if FrontierSignal(text, pc, cw) then "Frontier"
    else if AnyOccurs(text, ExperimentalPatterns) then "Experimental"
    else if AnyOccurs(text, SpecializedPatterns) then "Specialized"
    else if ProductionSignal(text, pc, cw) then "Production"
    else if pc >= 30.0 || cw >= 128000 then "Production"
    else if pc >= 7.0 || cw >= 16000 then "Standard"
    else if pc > 0.0 || cw > 0 then "Lightweight"
    else "Standard"
  }

  /** `classifyCapabilityTier`: one of six tiers, Frontier exactly on a
      frontier signal of the record. */
  function ClassifyCapabilityTier(api: ApiModel, p: Parsers): (r: string)
    ensures r in {"Frontier", "Experimental", "Specialized", "Production", "Standard", "Lightweight"}
    ensures r == "Frontier" <==> FrontierSignal(SearchText(api), ParameterCount(api, p), ContextSize(api, p))
    ensures ParameterCount(api, p) >= 70.0 ==> r == "Frontier"
  {
    Tier(SearchText(api), ParameterCount(api, p), ContextSize(api, p))
  }

  /** A frontier signal decides the tier whatever else the text says, and
      only a frontier signal gives it. */
  lemma FrontierFirst(text: string, pc: real, cw: int)
    ensures Tier(text, pc, cw) == "Frontier" <==> FrontierSignal(text, pc, cw)
  {
  }

  /** Below the frontier: experimental, then specialized, then production
      keywords or sizes, in that priority. */
  lemma TierPriority(text: string, pc: real, cw: int)
    requires !FrontierSignal(text, pc, cw)
    ensures Tier(text, pc, cw) == "Experimental" <==> AnyOccurs(text, ExperimentalPatterns)
    ensures Tier(text, pc, cw) == "Specialized" <==>
              !AnyOccurs(text, ExperimentalPatterns) && AnyOccurs(text, SpecializedPatterns)
    ensures Tier(text, pc, cw) == "Production" <==>
              !AnyOccurs(text, ExperimentalPatterns) && !AnyOccurs(text, SpecializedPatterns)
              && ProductionSignal(text, pc, cw)
  {
  }

  /** When no rule fires, the size fallback reduces to: `Standard` for a
      context in [16000, 32000), `Lightweight` for any other positive
      signal, `Standard` otherwise. The second `Production` fallback never
      decides. */
  lemma TierFallback(text: string, pc: real, cw: int)
    requires !FrontierSignal(text, pc, cw) && !AnyOccurs(text, ExperimentalPatterns)
    requires !AnyOccurs(text, SpecializedPatterns) && !ProductionSignal(text, pc, cw)
    ensures Tier(text, pc, cw) ==
              if 16000 <= cw < 32000 then "Standard"
              else if pc > 0.0 || cw > 0 then "Lightweight"
              else "Standard"
  {
  }

  // ------------------------------------------------------------ extraction

  const PriceScale: real := 1000000.0

  /** `parsePrice` of the result of an alias chain: a missing or
      unparseable value gives 0, anything else its value per million. */
  function ParsePrice(v: Option<Scalar>, p: Parsers): (r: real)
    ensures !TruthyScalar(v) ==> r == 0.0
    ensures TruthyScalar(v) && FloatOf(p, v.value).Some? ==> r == FloatOf(p, v.value).value * PriceScale
    ensures v.Some? && FloatOf(p, v.value).None? ==> r == 0.0
  {
    match v
    case None => 0.0
    case Some(s) =>
      if s == StringValue("") then 0.0
      else match FloatOf(p, s)
           case None => 0.0
           case Some(x) => x * PriceScale
  }

  /** `extractPricing`: the five prices through their alias chains, and
      `id` and `modelId` both `index + 1`. */
  function ExtractPricing(api: ApiModel, index: nat, p: Parsers): (r: Option<Pricing>)
    ensures r.None? <==> api.pricing.None?
    ensures r.Some? ==> r.value.id == index + 1 && r.value.modelId == index + 1
    ensures r.Some? ==> r.value.finetuningInput.Some? && r.value.finetuningOutput.Some? && r.value.trainingCost.Some?
  {
    match api.pricing
    case None => None
    case Some(pr) =>
      Some(Pricing(
        index + 1,
        index + 1,
        ParsePrice(FirstScalar([pr.prompt, pr.input, pr.inputText]), p),
        ParsePrice(FirstScalar([pr.completion, pr.output, pr.outputText]), p),
        Some(ParsePrice(FirstScalar([pr.finetuningInput, pr.fine_tuning_input]), p)),
        Some(ParsePrice(FirstScalar([pr.finetuningOutput, pr.fine_tuning_output]), p)),
        Some(ParsePrice(FirstScalar([pr.trainingCost, pr.training_cost]), p))))
  }

  /** The value per million of a truthy alias. */
  function Scaled(v: Scalar, p: Parsers): real {
    match FloatOf(p, v)
    case None => 0.0
    case Some(x) => x * PriceScale
  }

  /** The input price comes from the first truthy of `prompt`, `input`,
      `inputText`, and is 0 when none is. */
  lemma InputPriceAliases(api: ApiModel, index: nat, p: Parsers)
    requires api.pricing.Some?
    ensures var pr := api.pricing.value;
            var price := ExtractPricing(api, index, p).value.inputText;
            && (TruthyScalar(pr.prompt) ==> price == Scaled(pr.prompt.value, p))
            && (!TruthyScalar(pr.prompt) && TruthyScalar(pr.input) ==> price == Scaled(pr.input.value, p))
            && (!TruthyScalar(pr.prompt) && !TruthyScalar(pr.input) && TruthyScalar(pr.inputText) ==>
                  price == Scaled(pr.inputText.value, p))
            && (!TruthyScalar(pr.prompt) && !TruthyScalar(pr.input) && !TruthyScalar(pr.inputText) ==> price == 0.0)
  {
    var pr := api.pricing.value;
    var chain := [pr.prompt, pr.input, pr.inputText];
    var r := FirstScalar(chain);
    assert chain[1..] == [pr.input, pr.inputText] && chain[1..][1..] == [pr.inputText];
    if TruthyScalar(pr.prompt) {
      assert r == pr.prompt;
    } else {
      assert r == FirstScalar(chain[1..]);
      if TruthyScalar(pr.input) {
        assert r == pr.input;
      } else {
        assert r == FirstScalar(chain[1..][1..]);
      }
    }
  }

  /** Upstream prices are per token: 0.0000008 and 0.000015 per token
      become 0.8 and 15 per million. */
  lemma PerTokenPricesScaled(api: ApiModel, index: nat, p: Parsers)
    requires api.pricing.Some?
    requires api.pricing.value.prompt == Some(NumberValue(0.0000008))
    requires api.pricing.value.completion == Some(NumberValue(0.000015))
    ensures ExtractPricing(api, index, p).value.inputText == 0.8
    ensures ExtractPricing(api, index, p).value.outputText == 15.0
  {
    var pr := api.pricing.value;
    assert FirstScalar([pr.prompt, pr.input, pr.inputText]) == pr.prompt;
    assert FirstScalar([pr.completion, pr.output, pr.outputText]) == pr.completion;
  }

  /** The fields `extractModelParams` returns, spread over the model. */
  datatype ModelParams = ModelParams(
    parametersB: Option<real>,
    contextWindow: Option<int>,
    tokenLimit: Option<int>,
    releaseDate: Option<string>,
    description: Option<string>,
    precision: Option<string>,
    isOpenSource: bool,
    isHidden: bool,
    modality: Option<string>,
    capabilityTier: string)

  /** `parseFloat(…) || null`: `NaN` and 0 both give null. */
  function ParametersOf(api: ApiModel, p: Parsers): (r: Option<real>)
    ensures r.Some? ==> r.value != 0.0
  {
    match FirstScalar([api.parameters, api.parametersB, api.params])
    case None => None
    case Some(v) =>
      match FloatOf(p, v)
      case None => None
      case Some(x) => if x == 0.0 then None else Some(x)
  }

  /** `parseInt(…) || undefined` over an alias chain. */
  function PositiveIntOf(aliases: seq<Option<Scalar>>, p: Parsers): (r: Option<int>)
    ensures r.Some? ==> r.value != 0
    ensures r.Some? ==> FirstScalar(aliases).Some? && IntOf(p, FirstScalar(aliases).value) == r
  {
    match FirstScalar(aliases)
    case None => None
    case Some(v) =>
      match IntOf(p, v)
      case None => None
      case Some(n) => if n == 0 then None else Some(n)
  }

  function TokenAliases(api: ApiModel): seq<Option<Scalar>> {
    [api.topProviderMaxTokens, api.max_tokens, api.tokenLimit, api.output_limit]
  }

  /** The release day: a truthy `created` wins over `releaseDate`; a
      numeric `created` is in seconds. An invalid date throws. */
  function ReleaseDay(api: ApiModel, p: Parsers): (r: Result<Option<string>>)
    ensures r.Thrown? ==> r.error == RangeError
    ensures !TruthyScalar(api.created) && !TruthyText(api.releaseDate) ==> r == Ok(None)
  {
    var day :=
      if TruthyScalar(api.created) then
        match api.created.value
        case NumberValue(n) => Some(p.dayOfTime(n * 1000.0))
        case StringValue(s) => Some(p.dayOfText(s))
      else if TruthyText(api.releaseDate) then Some(p.dayOfText(api.releaseDate.value))
      else None;
    match day
    case None => Ok(None)
    case Some(d) => if d.None? then Thrown(RangeError) else Ok(Some(d.value))
  }

  /** `extractModelParams`. */
  function ExtractModelParams(api: ApiModel, p: Parsers): (r: Result<ModelParams>)
    ensures r.Thrown? <==> ReleaseDay(api, p).Thrown?
    ensures r.Ok? ==> r.value.isOpenSource == (IsTrue(api.isOpenSource) || IsTrue(api.open_source))
    ensures r.Ok? ==> r.value.isHidden == (IsTrue(api.isHidden) || IsTrue(api.hidden))
    ensures r.Ok? ==> r.value.capabilityTier == ClassifyCapabilityTier(api, p)
  {
    match ReleaseDay(api, p)
    case Thrown(e) => Thrown(e)
    case Ok(day) =>
      Ok(ModelParams(
        ParametersOf(api, p),
        PositiveIntOf(ContextAliases(api), p),
        PositiveIntOf(TokenAliases(api), p),
        day,
        FirstText([api.description, api.desc]),
        FirstText([api.precision]),
        IsTrue(api.isOpenSource) || IsTrue(api.open_source),
        IsTrue(api.isHidden) || IsTrue(api.hidden),
        FirstText([api.architectureModality, api.modality]),
        ClassifyCapabilityTier(api, p)))
  }

  /** `parametersB` ends up null exactly when no alias is truthy or the
      chosen one parses to `NaN` or 0. */
  lemma ParametersNull(api: ApiModel, p: Parsers)
    ensures ParametersOf(api, p).None? <==>
              var chosen := FirstScalar([api.parameters, api.parametersB, api.params]);
              chosen.None? || FloatOf(p, chosen.value).None? || FloatOf(p, chosen.value) == Some(0.0)
  {
  }

  /** A truthy `created` that is not a valid date throws, even when
      `releaseDate` is valid. */
  lemma InvalidCreatedThrows(api: ApiModel, p: Parsers)
    requires api.created.Some? && api.created.value.NumberValue? && api.created.value.n != 0.0
    requires p.dayOfTime(api.created.value.n * 1000.0).None?
    ensures ExtractModelParams(api, p) == Thrown(RangeError)
  {
    assert TruthyScalar(api.created);
    assert ReleaseDay(api, p) == Thrown(RangeError);
  }
}
