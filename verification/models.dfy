/** The model catalogue (src/models.rs): the nine Claude models, the
    identifiers each cloud knows them by, and the lookups over the
    catalogue. Prices and cost estimation are floating point and not part
    of this model. */
module Models {
  import opened Base

  datatype Model = Model(
    name: string,
    family: string,
    version: string,
    anthropicId: string,
    bedrockId: Option<string>,
    bedrockGlobalId: Option<string>,
    vertexId: Option<string>,
    maxContextTokens: u32,
    maxContextTokensExtended: Option<u32>,
    maxOutputTokens: u32,
    supportsVision: bool,
    supportsTools: bool,
    supportsCaching: bool,
    supportsExtendedThinking: bool,
    supportsEffort: bool,
    description: string)

  datatype BedrockRegion = Standard | Global | US | EU | AsiaPacific

  /** The endpoint prefix of a region; only `Standard` has none. */
  function Prefix(r: BedrockRegion): (p: string)
    ensures p == [] <==> r == Standard
    ensures p != [] ==> p[|p| - 1] == '.'
  {
    match r
    case Standard => ""
    case Global => "global."
    case US => "us."
    case EU => "eu."
    case AsiaPacific => "ap."
  }

  /** Different regions have different prefixes. */
  lemma PrefixInjective(r1: BedrockRegion, r2: BedrockRegion)
    requires r1 != r2
    ensures Prefix(r1) != Prefix(r2)
  {
  }

  /** `Model::bedrock_id_for_region`: the regional id under the region's prefix. */
  function BedrockIdForRegion(m: Model, r: BedrockRegion): (id: Option<string>)
    ensures id.Some? <==> m.bedrockId.Some?
    ensures id.Some? ==> id.value == Prefix(r) + m.bedrockId.value
    ensures id.Some? && r == Standard ==> id == m.bedrockId
  {
    match m.bedrockId
    case None => None
    case Some(b) => if Prefix(r) == [] then Some(b) else Some(Prefix(r) + b)
  }

  /** `Model::supports_extended_context`. */
  predicate SupportsExtendedContext(m: Model)
  {
    m.maxContextTokensExtended.Some?
  }

  /** `Model::max_extended_context`: present exactly when extended context is supported. */
  function MaxExtendedContext(m: Model): (r: Option<u32>)
    ensures r.Some? <==> SupportsExtendedContext(m)
    ensures r == m.maxContextTokensExtended
  {
    m.maxContextTokensExtended
  }

  /** `Model::validate_request`. The output limit is checked before extended context. */
  function ValidateRequest(m: Model, maxTokens: u32, useExtendedContext: bool): (r: Result<(), string>)
    ensures r.Ok? <==> maxTokens <= m.maxOutputTokens && (useExtendedContext ==> SupportsExtendedContext(m))
    ensures maxTokens > m.maxOutputTokens ==>
      r == Err("Requested max_tokens (" + Decimal(maxTokens) + ") exceeds model limit (" + Decimal(m.maxOutputTokens) + ")")
    ensures maxTokens <= m.maxOutputTokens && useExtendedContext && !SupportsExtendedContext(m) ==>
      r == Err("Model " + m.name + " does not support extended context")
  {
    if maxTokens > m.maxOutputTokens then
      Err("Requested max_tokens (" + Decimal(maxTokens) + ") exceeds model limit (" + Decimal(m.maxOutputTokens) + ")")
    else if useExtendedContext && !SupportsExtendedContext(m) then
      Err("Model " + m.name + " does not support extended context")
    else Ok(())
  }

  // ---- The catalogue ----

  /** The regional Bedrock id the catalogue gives a model: its Anthropic id
      as `anthropic.<id>-v1:0`. Every shipped model's literal regional id
      has this shape. */
  function RegionalBedrockId(anthropicId: string): string
  {
    "anthropic." + anthropicId + "-v1:0"
  }

  /** The global Bedrock id of the Claude 4.5 models: the regional id under `global.`. */
  function GlobalBedrockId(anthropicId: string): string
  {
    "global." + RegionalBedrockId(anthropicId)
  }

  const CLAUDE_SONNET_4_5: Model := Model(
    "Claude Sonnet 4.5", "sonnet", "2025-09-29", "claude-sonnet-4-5-20250929",
    Some(RegionalBedrockId("claude-sonnet-4-5-20250929")),
    Some(GlobalBedrockId("claude-sonnet-4-5-20250929")),
    Some("claude-sonnet-4-5@20250929"),
    200_000, Some(1_000_000), 64_000, true, true, true, true, false,
    "Smart model for complex agents and coding")

  const CLAUDE_HAIKU_4_5: Model := Model(
    "Claude Haiku 4.5", "haiku", "2025-10-01", "claude-haiku-4-5-20251001",
    Some(RegionalBedrockId("claude-haiku-4-5-20251001")),
    Some(GlobalBedrockId("claude-haiku-4-5-20251001")),
    Some("claude-haiku-4-5@20251001"),
    200_000, None, 64_000, true, true, true, true, false,
    "Fastest model with near-frontier intelligence")

  const CLAUDE_OPUS_4_5: Model := Model(
    "Claude Opus 4.5", "opus", "2025-11-01", "claude-opus-4-5-20251101",
    Some(RegionalBedrockId("claude-opus-4-5-20251101")),
    Some(GlobalBedrockId("claude-opus-4-5-20251101")),
    Some("claude-opus-4-5@20251101"),
    200_000, None, 64_000, true, true, true, true, true,
    "Maximum intelligence with practical performance")

  const CLAUDE_OPUS_4_1: Model := Model(
    "Claude Opus 4.1", "opus", "2025-08-05", "claude-opus-4-1-20250805",
    Some(RegionalBedrockId("claude-opus-4-1-20250805")), None,
    Some("claude-opus-4-1@20250805"),
    200_000, None, 32_000, true, true, true, true, false,
    "Previous generation powerful model")

  const CLAUDE_SONNET_4: Model := Model(
    "Claude Sonnet 4", "sonnet", "2025-05-14", "claude-sonnet-4-20250514",
    Some(RegionalBedrockId("claude-sonnet-4-20250514")), None,
    Some("claude-sonnet-4@20250514"),
    200_000, Some(1_000_000), 64_000, true, true, true, true, false,
    "Previous generation balanced model")

  const CLAUDE_SONNET_3_7: Model := Model(
    "Claude Sonnet 3.7", "sonnet", "2025-02-19", "claude-3-7-sonnet-20250219",
    Some(RegionalBedrockId("claude-3-7-sonnet-20250219")), None,
    Some("claude-3-7-sonnet@20250219"),
    200_000, None, 64_000, true, true, true, true, false,
    "Claude 3.7 balanced model")

  const CLAUDE_OPUS_4: Model := Model(
    "Claude Opus 4", "opus", "2025-05-14", "claude-opus-4-20250514",
    Some(RegionalBedrockId("claude-opus-4-20250514")), None,
    Some("claude-opus-4@20250514"),
    200_000, None, 32_000, true, true, true, true, false,
    "Claude 4 powerful model")

  const CLAUDE_HAIKU_3_5: Model := Model(
    "Claude Haiku 3.5", "haiku", "2024-10-22", "claude-3-5-haiku-20241022",
    Some(RegionalBedrockId("claude-3-5-haiku-20241022")), None,
    Some("claude-3-5-haiku@20241022"),
    200_000, None, 8_192, true, true, true, false, false,
    "Fast and efficient model")

  const CLAUDE_HAIKU_3: Model := Model(
    "Claude Haiku 3", "haiku", "2024-03-07", "claude-3-haiku-20240307",
    Some(RegionalBedrockId("claude-3-haiku-20240307")), None,
    Some("claude-3-haiku@20240307"),
    200_000, None, 4_096, true, true, true, false, false,
    "Original fast model")

  /** `ALL_MODELS`, latest first. */
  const ALL_MODELS: seq<Model> := [
    CLAUDE_SONNET_4_5, CLAUDE_HAIKU_4_5, CLAUDE_OPUS_4_5,
    CLAUDE_OPUS_4_1, CLAUDE_SONNET_4, CLAUDE_SONNET_3_7, CLAUDE_OPUS_4,
    CLAUDE_HAIKU_3_5, CLAUDE_HAIKU_3]

  // ---- First-match lookup ----

  /** The index of the first model satisfying `p`, or `|ms|` when none does. */
  function FirstWhere(ms: seq<Model>, p: Model -> bool): (k: nat)
    ensures k <= |ms|
    ensures k < |ms| ==> p(ms[k])
    ensures forall i :: 0 <= i < k ==> !p(ms[i])
  {
    if ms == [] then 0
    else if p(ms[0]) then 0
    else 1 + FirstWhere(ms[1..], p)
  }

  /** `Iterator::find` over a catalogue. */
  function Find(ms: seq<Model>, p: Model -> bool): (r: Option<Model>)
    ensures r.Some? ==> r.value in ms && p(r.value)
    ensures r.None? <==> forall i :: 0 <= i < |ms| ==> !p(ms[i])
  {
    var k := FirstWhere(ms, p);
    if k < |ms| then Some(ms[k]) else None
  }

  /** `Option::as_str` comparison: does the optional id equal `id`? */
  predicate IdIs(o: Option<string>, id: string)
  {
    o == Some(id)
  }

  /** `get_model_by_anthropic_id` over the catalogue `ms`. */
  function ByAnthropicId(ms: seq<Model>, id: string): (r: Option<Model>)
    ensures r.Some? ==> r.value in ms && r.value.anthropicId == id
    ensures r.None? <==> forall i :: 0 <= i < |ms| ==> ms[i].anthropicId != id
  {
    Find(ms, (m: Model) => m.anthropicId == id)
  }

  /** `str::strip_prefix`. */
  function StripPrefix(s: string, p: string): (r: Option<string>)
    ensures r.Some? <==> p <= s
    ensures r.Some? ==> s == p + r.value
  {
    if p <= s then
      assert s == p + s[|p|..];
      Some(s[|p|..])
    else None
  }

  /** The id `get_model_by_bedrock_id` searches after an exact match fails:
      at most one region prefix removed, trying `global.`, `us.`, `eu.`
      and `ap.` in that order. */
  function BaseBedrockId(id: string): (b: string)
    ensures Unprefixed(id) ==> b == id
    ensures b == id || id == "global." + b || id == "us." + b || id == "eu." + b || id == "ap." + b
  {
    StripPrefix(id, "global.")
      .OrElse(StripPrefix(id, "us."))
      .OrElse(StripPrefix(id, "eu."))
      .OrElse(StripPrefix(id, "ap."))
      .OrElse(Some(id)).value
  }

  /** `get_model_by_bedrock_id` over the catalogue `ms`: an exact match of
      the regional or the global id wins, then the regional id is matched
      against the prefix-stripped id. */
  function ByBedrockId(ms: seq<Model>, id: string): (r: Option<Model>)
    ensures r.Some? ==> r.value in ms
    ensures r.Some? ==> IdIs(r.value.bedrockId, id) || IdIs(r.value.bedrockGlobalId, id)
                        || IdIs(r.value.bedrockId, BaseBedrockId(id))
    ensures (exists i :: 0 <= i < |ms| && (IdIs(ms[i].bedrockId, id) || IdIs(ms[i].bedrockGlobalId, id))) ==>
      r.Some? && (IdIs(r.value.bedrockId, id) || IdIs(r.value.bedrockGlobalId, id))
    ensures (forall i :: 0 <= i < |ms| ==> !(IdIs(ms[i].bedrockId, id) || IdIs(ms[i].bedrockGlobalId, id))) ==>
      (r.None? <==> forall i :: 0 <= i < |ms| ==> !IdIs(ms[i].bedrockId, BaseBedrockId(id)))
  {
    var exact := Find(ms, (m: Model) => IdIs(m.bedrockId, id) || IdIs(m.bedrockGlobalId, id));
    if exact.Some? then exact
    else
      var b := BaseBedrockId(id);
      Find(ms, (m: Model) => IdIs(m.bedrockId, b))
  }

  /** `get_model_by_vertex_id` over the catalogue `ms`. */
  function ByVertexId(ms: seq<Model>, id: string): (r: Option<Model>)
    ensures r.Some? ==> r.value in ms && IdIs(r.value.vertexId, id)
    ensures r.None? <==> forall i :: 0 <= i < |ms| ==> !IdIs(ms[i].vertexId, id)
  {
    Find(ms, (m: Model) => IdIs(m.vertexId, id))
  }

  /** `get_model`: the first of the Anthropic, Bedrock and Vertex lookups that answers. */
  function GetModel(ms: seq<Model>, id: string): (r: Option<Model>)
    ensures ByAnthropicId(ms, id).Some? ==> r == ByAnthropicId(ms, id)
    ensures ByAnthropicId(ms, id).None? && ByBedrockId(ms, id).Some? ==> r == ByBedrockId(ms, id)
    ensures ByAnthropicId(ms, id).None? && ByBedrockId(ms, id).None? ==> r == ByVertexId(ms, id)
    ensures r.Some? ==> r.value in ms
  {
    ByAnthropicId(ms, id).OrElse(ByBedrockId(ms, id)).OrElse(ByVertexId(ms, id))
  }

  // ---- Catalogue well-formedness and the round trips it gives ----

  /** No two models of `ms` share an Anthropic id. */
  predicate AnthropicIdsUnique(ms: seq<Model>)
  {
    forall i, j :: 0 <= i < j < |ms| ==> ms[i].anthropicId != ms[j].anthropicId
  }

  /** No two models of `ms` share a regional Bedrock id. */
  predicate BedrockIdsUnique(ms: seq<Model>)
  {
    forall i, j :: 0 <= i < j < |ms| && ms[i].bedrockId.Some? ==> ms[i].bedrockId != ms[j].bedrockId
  }

  /** Does no region prefix begin `id`? */
  predicate Unprefixed(id: string)
  {
    !("global." <= id) && !("us." <= id) && !("eu." <= id) && !("ap." <= id)
  }

  /** What the Bedrock round trip relies on: distinct regional ids that
      carry no region prefix themselves, and global ids that are the
      regional ids under `global.`. */
  predicate BedrockWellFormed(ms: seq<Model>)
  {
    && BedrockIdsUnique(ms)
    && (forall i :: 0 <= i < |ms| && ms[i].bedrockId.Some? ==> Unprefixed(ms[i].bedrockId.value))
    && (forall i :: 0 <= i < |ms| && ms[i].bedrockGlobalId.Some? ==>
          ms[i].bedrockId.Some? && ms[i].bedrockGlobalId.value == "global." + ms[i].bedrockId.value)
  }

  /** Looking up a model's own Anthropic id finds that model, in any
      catalogue whose Anthropic ids are unique. */
  lemma AnthropicIdRoundTrip(ms: seq<Model>, k: nat)
    requires AnthropicIdsUnique(ms) && k < |ms|
    ensures ByAnthropicId(ms, ms[k].anthropicId) == Some(ms[k])
  {
    var p := (m: Model) => m.anthropicId == ms[k].anthropicId;
    var j := FirstWhere(ms, p);
    assert p(ms[k]);
    assert j <= k;
    assert ms[j].anthropicId == ms[k].anthropicId;
  }

  /** A region's non-empty prefix disqualifies an id from being unprefixed. */
  lemma RegionalIsPrefixed(r: BedrockRegion, b: string)
    ensures r != Standard ==> !Unprefixed(Prefix(r) + b)
  {
    assert Prefix(r) <= Prefix(r) + b;
  }

  /** Two prefixes of one length that differ begin no common string. */
  lemma StripOtherPrefix(a: string, b: string, s: string)
    requires |a| == |b| && a != b
    ensures !(a <= b + s)
  {
    assert (b + s)[..|b|] == b;
  }

  /** A prefix that disagrees with a shorter prefix on the shorter one's
      length does not begin anything that prefix begins. */
  lemma StripLonger(a: string, b: string, s: string)
    requires |b| <= |a| && a[..|b|] != b
    ensures !(a <= b + s)
  {
    assert (b + s)[..|b|] == b;
    assert forall t: string :: a <= t ==> t[..|b|] == a[..|b|];
  }

  /** The id searched for after prefix stripping, for each region. */
  lemma BaseOfRegional(r: BedrockRegion, b: string)
    requires Unprefixed(b)
    ensures BaseBedrockId(Prefix(r) + b) == b
  {
    var id := Prefix(r) + b;
    match r
    case Standard =>
      assert id == b;
    case Global =>
      assert StripPrefix(id, "global.") == Some(b);
    case US =>
      StripLonger("global.", "us.", b);
      assert StripPrefix(id, "us.") == Some(b);
    case EU =>
      StripLonger("global.", "eu.", b);
      StripOtherPrefix("us.", "eu.", b);
      assert StripPrefix(id, "eu.") == Some(b);
    case AsiaPacific =>
      StripLonger("global.", "ap.", b);
      StripOtherPrefix("us.", "ap.", b);
      StripOtherPrefix("eu.", "ap.", b);
      assert StripPrefix(id, "ap.") == Some(b);
  }

  /** Which unprefixed regional id an exact match on a regional id can be:
      a regional id equal to `Prefix(r) + b`, or a global id
      `"global." + bj` equal to it, is only possible with `bj == b`. */
  lemma ExactMatchIds(r: BedrockRegion, b: string, bj: string)
    ensures Unprefixed(b) && Unprefixed(bj) && bj == Prefix(r) + b ==> bj == b
    ensures Unprefixed(b) && "global." + bj == Prefix(r) + b ==> bj == b
  {
    RegionalIsPrefixed(r, b);
    var g := "global." + bj;
    assert g[..7] == "global." && g[7..] == bj;
    match r
    case Standard =>
      assert "global." <= g;
    case Global =>
      assert (Prefix(r) + b)[7..] == b;
    case US =>
      assert g[0] == 'g' && (Prefix(r) + b)[0] == 'u';
    case EU =>
      assert g[0] == 'g' && (Prefix(r) + b)[0] == 'e';
    case AsiaPacific =>
      assert g[0] == 'g' && (Prefix(r) + b)[0] == 'a';
  }

  /** A model matched exactly by a regional id of model `k` has `k`'s
      regional id, hence is model `k`, in a well-formed catalogue. */
  lemma ExactHitIsOwn(ms: seq<Model>, k: nat, r: BedrockRegion, j: nat)
    requires BedrockWellFormed(ms) && k < |ms| && ms[k].bedrockId.Some? && j < |ms|
    requires var id := Prefix(r) + ms[k].bedrockId.value;
      IdIs(ms[j].bedrockId, id) || IdIs(ms[j].bedrockGlobalId, id)
    ensures ms[j] == ms[k]
  {
    assert ms[j].bedrockId.Some?;
    ExactMatchIds(r, ms[k].bedrockId.value, ms[j].bedrockId.value);
    assert ms[j].bedrockId == ms[k].bedrockId;
  }

  /** For every model with a Bedrock id and every region, looking up the
      regional id finds the model again, in any well-formed catalogue. */
  lemma BedrockRoundTrip(ms: seq<Model>, k: nat, r: BedrockRegion)
    requires BedrockWellFormed(ms) && k < |ms| && ms[k].bedrockId.Some?
    ensures ByBedrockId(ms, BedrockIdForRegion(ms[k], r).value) == Some(ms[k])
  {
    var b := ms[k].bedrockId.value;
    var id := Prefix(r) + b;
    assert BedrockIdForRegion(ms[k], r).value == id;
    var exactP := (m: Model) => IdIs(m.bedrockId, id) || IdIs(m.bedrockGlobalId, id);
    var j := FirstWhere(ms, exactP);
    if j < |ms| {
      ExactHitIsOwn(ms, k, r, j);
    } else {
      BaseOfRegional(r, b);
      var baseP := (m: Model) => IdIs(m.bedrockId, b);
      var i := FirstWhere(ms, baseP);
      assert baseP(ms[k]);
      assert ms[i].bedrockId == ms[k].bedrockId;
    }
  }

  // ---- Facts about the shipped catalogue ----

  /** Is every regional Bedrock id of `ms` derived from its model's Anthropic id? */
  predicate BedrockIdsDerived(ms: seq<Model>)
  {
    forall i :: 0 <= i < |ms| ==> ms[i].bedrockId == Some(RegionalBedrockId(ms[i].anthropicId))
  }

  /** Distinct Anthropic ids give distinct regional Bedrock ids. */
  lemma RegionalBedrockIdInjective(x: string, y: string)
    ensures RegionalBedrockId(x) == RegionalBedrockId(y) ==> x == y
  {
    var wx := RegionalBedrockId(x);
    var wy := RegionalBedrockId(y);
    assert wx[10..|wx| - 5] == x;
    assert wy[10..|wy| - 5] == y;
  }

  /** A regional Bedrock id carries no region prefix. */
  lemma RegionalBedrockIdUnprefixed(x: string)
    ensures Unprefixed(RegionalBedrockId(x))
  {
    var w := RegionalBedrockId(x);
    assert w[0] == 'a' && w[1] == 'n';
  }

  /** Is every global Bedrock id of `ms` derived from its model's Anthropic id? */
  predicate GlobalIdsDerived(ms: seq<Model>)
  {
    forall i :: 0 <= i < |ms| && ms[i].bedrockGlobalId.Some? ==>
      ms[i].bedrockGlobalId == Some(GlobalBedrockId(ms[i].anthropicId))
  }

  /** A catalogue with unique Anthropic ids whose Bedrock ids are all
      derived from them is well formed for the Bedrock round trip. */
  lemma DerivedIdsWellFormed(ms: seq<Model>)
    requires AnthropicIdsUnique(ms) && BedrockIdsDerived(ms) && GlobalIdsDerived(ms)
    ensures BedrockWellFormed(ms)
  {
    forall i, j | 0 <= i < j < |ms|
      ensures ms[i].bedrockId != ms[j].bedrockId
    {
      RegionalBedrockIdInjective(ms[i].anthropicId, ms[j].anthropicId);
    }
    forall i | 0 <= i < |ms|
      ensures Unprefixed(ms[i].bedrockId.value)
    {
      RegionalBedrockIdUnprefixed(ms[i].anthropicId);
    }
  }

  /** The shipped catalogue's Anthropic ids are pairwise distinct. */
  lemma AllModelsAnthropicIdsUnique()
    ensures AnthropicIdsUnique(ALL_MODELS)
  {
  }

  /** The shipped catalogue's Bedrock ids are derived from its Anthropic ids. */
  lemma AllModelsIdsDerived()
    ensures BedrockIdsDerived(ALL_MODELS) && GlobalIdsDerived(ALL_MODELS)
  {
  }

  /** In a catalogue whose Anthropic ids are unique and whose Bedrock ids
      are derived from them, every model is found by its Anthropic id, and
      by its Bedrock id under every region prefix. */
  lemma CatalogueRoundTrip(ms: seq<Model>, k: nat, r: BedrockRegion)
    requires AnthropicIdsUnique(ms) && BedrockIdsDerived(ms) && GlobalIdsDerived(ms) && k < |ms|
    ensures ByAnthropicId(ms, ms[k].anthropicId) == Some(ms[k])
    ensures BedrockIdForRegion(ms[k], r).Some?
    ensures ByBedrockId(ms, BedrockIdForRegion(ms[k], r).value) == Some(ms[k])
    ensures GetModel(ms, ms[k].anthropicId) == Some(ms[k])
    ensures GetModel(ms, BedrockIdForRegion(ms[k], r).value).Some?
  {
    AnthropicIdRoundTrip(ms, k);
    DerivedIdsWellFormed(ms);
    BedrockRoundTrip(ms, k, r);
  }

  /** Every shipped model is found by its Anthropic id, and by its Bedrock id
      under every region prefix. */
  lemma AllModelsRoundTrip(k: nat, r: BedrockRegion)
    requires k < |ALL_MODELS|
    ensures ByAnthropicId(ALL_MODELS, ALL_MODELS[k].anthropicId) == Some(ALL_MODELS[k])
    ensures BedrockIdForRegion(ALL_MODELS[k], r).Some?
    ensures ByBedrockId(ALL_MODELS, BedrockIdForRegion(ALL_MODELS[k], r).value) == Some(ALL_MODELS[k])
    ensures GetModel(ALL_MODELS, ALL_MODELS[k].anthropicId) == Some(ALL_MODELS[k])
    ensures GetModel(ALL_MODELS, BedrockIdForRegion(ALL_MODELS[k], r).value).Some?
  {
    AllModelsAnthropicIdsUnique();
    AllModelsIdsDerived();
    CatalogueRoundTrip(ALL_MODELS, k, r);
  }

  /** The examples of the source's tests: the global region gives the
      global id, and the output limit and extended-context checks. */
  lemma CatalogueExamples()
    ensures BedrockIdForRegion(CLAUDE_SONNET_4_5, Global) == CLAUDE_SONNET_4_5.bedrockGlobalId
    ensures BedrockIdForRegion(CLAUDE_SONNET_4_5, Standard) == CLAUDE_SONNET_4_5.bedrockId
    ensures ValidateRequest(CLAUDE_SONNET_4_5, 64_000, false).Ok?
    ensures ValidateRequest(CLAUDE_SONNET_4_5, 100_000, false).Err?
    ensures ValidateRequest(CLAUDE_SONNET_4_5, 1024, true).Ok?
    ensures ValidateRequest(CLAUDE_HAIKU_4_5, 1024, true).Err?
  {
  }
}
