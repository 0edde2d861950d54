/**
 * The provider-independent generation call: the system prompt gains a block
 * built from the user's context, the model falls back to the provider's
 * default, the request is shaped for the selected provider with that
 * provider's key, and Gemini's answer loses its markdown code fences.
 *
 * The network is the parameter `reply`: it maps the request that would be sent
 * to the text the provider's SDK yields for it.
 */
module AIService {
  import opened Wrappers
  import opened AISettingsStore
  import Schema
  import UserProfileStore
  import Text

  const DefaultOpenAIModel: string := "gpt-4o-mini"
  const DefaultGoogleModel: string := "gemini-1.5-flash"
  const DefaultAnthropicModel: string := "claude-3-haiku-20240307"

  /** `DEFAULT_MODELS[provider]`, which is undefined for an unknown tag. */
  function DefaultModel(p: string): (r: Option<string>)
    ensures r.Some? <==> IsProvider(p)
    ensures r.Some? ==> r.value != ""
  {
    if p == OpenAITag then Some(DefaultOpenAIModel)
    else if p == GoogleTag then Some(DefaultGoogleModel)
    else if p == AnthropicTag then Some(DefaultAnthropicModel)
    else None
  }

  /** `settings.selectedModel || DEFAULT_MODELS[provider]` */
  function ModelFor(s: Settings, p: string): (r: Option<string>)
    ensures s.selectedModel != "" ==> r == Some(s.selectedModel)
    ensures IsProvider(p) ==> r.Some? && r.value != ""
    ensures r.Some? && r.value != s.selectedModel ==> s.selectedModel == "" && r == DefaultModel(p)
  {
    if s.selectedModel != "" then Some(s.selectedModel) else DefaultModel(p)
  }

  // ----- The context block -----

  /** The optional free-text context; each part counts only when present and non-empty. */
  datatype PromptContext = PromptContext(summary: Option<string>, skills: Option<string>, custom: Option<string>)

  /** JavaScript truthiness of an optional string. */
  predicate Truthy(o: Option<string>)
  {
    o.Some? && o.value != ""
  }

  predicate HasContextText(c: PromptContext)
  {
    Truthy(c.summary) || Truthy(c.skills) || Truthy(c.custom)
  }

  function Quoted(heading: string, text: string): string
  {
    heading + ":\n\"" + text + "\""
  }

  const SummaryLabel: string := "USER PROFESSIONAL SUMMARY"
  const SkillsLabel: string := "USER TECHNICAL SKILLS"
  const CustomLabel: string := "CUSTOM INSTRUCTIONS"
  const ContextHeader: string := "\n\nADDITIONAL CONTEXT & INSTRUCTIONS:\n"
  const PartSeparator: string := "\n\n"
  const ContextFooter: string := "\n\nUse this context to personalize the output."

  /** How many of the three context texts are present and non-empty. */
  function TextCount(c: PromptContext): nat
  {
    (if Truthy(c.summary) then 1 else 0) + (if Truthy(c.skills) then 1 else 0) + (if Truthy(c.custom) then 1 else 0)
  }

  /** The labelled parts, in the order summary, skills, custom, each only if its text is non-empty. */
  function ContextParts(c: PromptContext): (r: seq<string>)
    ensures |r| == TextCount(c) && |r| <= 3
    ensures r == [] <==> !HasContextText(c)
    ensures Truthy(c.summary) ==> r[0] == Quoted(SummaryLabel, c.summary.value)
    ensures Truthy(c.skills) ==> r[if Truthy(c.summary) then 1 else 0] == Quoted(SkillsLabel, c.skills.value)
    ensures Truthy(c.custom) ==> r[|r| - 1] == Quoted(CustomLabel, c.custom.value)
  {
    (if Truthy(c.summary) then [Quoted(SummaryLabel, c.summary.value)] else [])
    + (if Truthy(c.skills) then [Quoted(SkillsLabel, c.skills.value)] else [])
    + (if Truthy(c.custom) then [Quoted(CustomLabel, c.custom.value)] else [])
  }

  /** The system prompt actually sent: the given one, followed by the context block when there is any context text. */
  function SystemPromptWithContext(systemPrompt: string, context: Option<PromptContext>): (r: string)
    ensures |systemPrompt| <= |r| && r[..|systemPrompt|] == systemPrompt
    ensures r == systemPrompt <==> context.None? || !HasContextText(context.value)
    ensures r != systemPrompt ==>
              r[|systemPrompt|..] == ContextHeader + Text.Join(ContextParts(context.value), PartSeparator) + ContextFooter
  {
    if context.Some? && HasContextText(context.value) then
      var block := ContextHeader + Text.Join(ContextParts(context.value), PartSeparator) + ContextFooter;
      assert (systemPrompt + block)[|systemPrompt|..] == block;
      systemPrompt + block
    else systemPrompt
  }

  /** The `contextParts` array of `generateContent`, filled by one push per non-empty text. */
  method PushContextParts(c: PromptContext) returns (contextParts: seq<string>)
    ensures contextParts == ContextParts(c)
  {
    contextParts := [];
    if Truthy(c.summary) {
      contextParts := contextParts + [Quoted(SummaryLabel, c.summary.value)];
    }
    if Truthy(c.skills) {
      contextParts := contextParts + [Quoted(SkillsLabel, c.skills.value)];
    }
    if Truthy(c.custom) {
      contextParts := contextParts + [Quoted(CustomLabel, c.custom.value)];
    }
  }

  /** The context block built step by step, as `generateContent` does, with a list of parts and a growing string. */
  method FinalSystemPrompt(systemPrompt: string, context: Option<PromptContext>) returns (finalSystemPrompt: string)
    ensures finalSystemPrompt == SystemPromptWithContext(systemPrompt, context)
  {
    finalSystemPrompt := systemPrompt;
    if context.Some? {
      var contextParts := PushContextParts(context.value);
      if |contextParts| > 0 {
        var block := ContextHeader + Text.Join(contextParts, PartSeparator) + ContextFooter;
        finalSystemPrompt := finalSystemPrompt + block;
      }
    }
  }

  /** With all three parts present, they are separated by blank lines in the order summary, skills, custom. */
  lemma ContextOrder(summary: string, skills: string, custom: string)
    requires summary != "" && skills != "" && custom != ""
    ensures Text.Join(ContextParts(PromptContext(Some(summary), Some(skills), Some(custom))), PartSeparator)
            == Quoted(SummaryLabel, summary) + PartSeparator + Quoted(SkillsLabel, skills)
               + PartSeparator + Quoted(CustomLabel, custom)
  {
    var parts := ContextParts(PromptContext(Some(summary), Some(skills), Some(custom)));
    assert parts[1..][1..] == [Quoted(CustomLabel, custom)];
  }

  // ----- Requests -----

  const GeminiInstruction: string := "\n\nIMPORTANT: Return only valid JSON.\n\nUser Input:\n"
  const AnthropicInstruction: string := "\nIMPORTANT: Return valid JSON only."
  const AnthropicMaxTokens: nat := 1024

  /** What would be sent over the network, per provider. */
  datatype Request =
    | OpenAIChat(apiKey: string, model: string, system: string, user: string)  // JSON-object response format
    | GeminiGenerate(apiKey: string, model: string, fullPrompt: string)
    | AnthropicMessages(apiKey: string, model: string, maxTokens: nat, system: string, user: string)
  {
    function Provider(): string
    {
      match this
      case OpenAIChat(_, _, _, _) => OpenAITag
      case GeminiGenerate(_, _, _) => GoogleTag
      case AnthropicMessages(_, _, _, _, _) => AnthropicTag
    }
  }

  datatype AIError = InvalidProvider | MissingKey(provider: string) | InvalidJson

  /** The single prompt string Gemini receives: both the system prompt and the user prompt can be read back from it. */
  function GeminiPrompt(systemPrompt: string, prompt: string): (r: string)
    ensures |r| == |systemPrompt| + |GeminiInstruction| + |prompt|
    ensures r[..|systemPrompt|] == systemPrompt
    ensures r[|systemPrompt|..|systemPrompt| + |GeminiInstruction|] == GeminiInstruction
    ensures r[|r| - |prompt|..] == prompt
  {
    var r := systemPrompt + GeminiInstruction + prompt;
    assert r[..|systemPrompt|] == systemPrompt;
    assert r[|systemPrompt|..|systemPrompt| + |GeminiInstruction|] == GeminiInstruction;
    assert r[|r| - |prompt|..] == prompt;
    r
  }

  /** The system text Anthropic receives: the system prompt followed by the JSON-only instruction. */
  function AnthropicSystem(systemPrompt: string): (r: string)
    ensures |r| == |systemPrompt| + |AnthropicInstruction|
    ensures r[..|systemPrompt|] == systemPrompt && r[|systemPrompt|..] == AnthropicInstruction
  {
    var r := systemPrompt + AnthropicInstruction;
    assert r[..|systemPrompt|] == systemPrompt && r[|systemPrompt|..] == AnthropicInstruction;
    r
  }

  /** `generateOpenAI` up to the network call: an empty key is rejected first. */
  function OpenAIRequest(prompt: string, systemPrompt: string, apiKey: string, model: string): (r: Result<Request, AIError>)
    ensures r.Failure? <==> apiKey == ""
    ensures r.Failure? ==> r.error == MissingKey(OpenAITag)
    ensures r.Success? ==> r.value.OpenAIChat? && r.value.apiKey == apiKey && r.value.model == model
                           && r.value.system == systemPrompt && r.value.user == prompt
  {
    if apiKey == "" then Failure(MissingKey(OpenAITag))
    else Success(OpenAIChat(apiKey, model, systemPrompt, prompt))
  }

  /** `generateGoogle` up to the network call. */
  function GoogleRequest(prompt: string, systemPrompt: string, apiKey: string, model: string): (r: Result<Request, AIError>)
    ensures r.Failure? <==> apiKey == ""
    ensures r.Failure? ==> r.error == MissingKey(GoogleTag)
    ensures r.Success? ==> r.value.GeminiGenerate? && r.value.apiKey == apiKey && r.value.model == model
                           && r.value.fullPrompt == GeminiPrompt(systemPrompt, prompt)
  {
    if apiKey == "" then Failure(MissingKey(GoogleTag))
    else Success(GeminiGenerate(apiKey, model, GeminiPrompt(systemPrompt, prompt)))
  }

  /** `generateAnthropic` up to the network call. */
  function AnthropicRequest(prompt: string, systemPrompt: string, apiKey: string, model: string): (r: Result<Request, AIError>)
    ensures r.Failure? <==> apiKey == ""
    ensures r.Failure? ==> r.error == MissingKey(AnthropicTag)
    ensures r.Success? ==> r.value.AnthropicMessages? && r.value.apiKey == apiKey && r.value.model == model
                           && r.value.maxTokens == AnthropicMaxTokens
                           && r.value.system == AnthropicSystem(systemPrompt) && r.value.user == prompt
  {
    if apiKey == "" then Failure(MissingKey(AnthropicTag))
    else Success(AnthropicMessages(apiKey, model, AnthropicMaxTokens, AnthropicSystem(systemPrompt), prompt))
  }

  datatype GenerateOptions = GenerateOptions(
    prompt: string,
    systemPrompt: string,
    provider: string,
    settings: Settings,
    context: Option<PromptContext>)

  /**
   * `generateContent` up to the network call: the request for the provider
   * named in the options, or the error it throws first.
   */
  function BuildRequest(o: GenerateOptions): (r: Result<Request, AIError>)
    ensures r == Failure(InvalidProvider) <==> !IsProvider(o.provider)
    ensures IsProvider(o.provider) ==> (r.Failure? <==> !HasKey(o.settings, o.provider))
    ensures IsProvider(o.provider) && r.Failure? ==> r.error == MissingKey(o.provider)
    ensures r.Success? ==> && r.value.Provider() == o.provider
                           && r.value.apiKey == KeyFor(o.settings, o.provider).value
                           && r.value.model == ModelFor(o.settings, o.provider).value
    ensures var sys := SystemPromptWithContext(o.systemPrompt, o.context);
      && (r.Success? && r.value.OpenAIChat? ==> r.value.system == sys && r.value.user == o.prompt)
      && (r.Success? && r.value.GeminiGenerate? ==> r.value.fullPrompt == GeminiPrompt(sys, o.prompt))
      && (r.Success? && r.value.AnthropicMessages? ==>
            r.value.system == AnthropicSystem(sys) && r.value.user == o.prompt && r.value.maxTokens == AnthropicMaxTokens)
  {
    var system := SystemPromptWithContext(o.systemPrompt, o.context);
    var model := ModelFor(o.settings, o.provider);
    if o.provider == OpenAITag then OpenAIRequest(o.prompt, system, o.settings.openaiKey, model.value)
    else if o.provider == GoogleTag then GoogleRequest(o.prompt, system, o.settings.googleKey, model.value)
    else if o.provider == AnthropicTag then AnthropicRequest(o.prompt, system, o.settings.anthropicKey, model.value)
    else Failure(InvalidProvider)
  }

  // ----- Responses -----

  /**
   * `text.replace(/```json\n?|\n?```/g, "")`: scanning from the left, an
   * opening fence (with the newline after it, if any) or a closing fence (with
   * the newline before it, if any) is dropped; the first alternative is tried first.
   */
  function StripFences(s: string): (r: string)
    ensures |r| <= |s|
    decreases |s|
  {
    if |s| >= 7 && s[..7] == "```json" then
      if |s| >= 8 && s[7] == '\n' then StripFences(s[8..]) else StripFences(s[7..])
    else if |s| >= 4 && s[..4] == "\n```" then StripFences(s[4..])
    else if |s| >= 3 && s[..3] == "```" then StripFences(s[3..])
    else if s == [] then []
    else [s[0]] + StripFences(s[1..])
  }

  predicate NoBacktick(s: string)
  {
    forall i :: 0 <= i < |s| ==> s[i] != '`'
  }

  /** A first character that starts no fence is kept and the scan moves on. */
  lemma StripFencesKeepStep(s: string)
    requires |s| >= 1 && s[0] != '`'
    requires s[0] == '\n' && |s| >= 4 ==> s[1] != '`'
    ensures StripFences(s) == [s[0]] + StripFences(s[1..])
  {
    if |s| >= 7 { assert s[..7][0] == s[0]; }
    if |s| >= 4 { assert s[..4][1] == s[1]; }
    if |s| >= 3 { assert s[..3][0] == s[0]; }
  }

  /** A closing fence with its leading newline is dropped. */
  lemma StripFencesCloseStep(s: string)
    requires |s| >= 4 && s[..4] == "\n```"
    ensures StripFences(s) == StripFences(s[4..])
  {
    if |s| >= 7 { assert s[..7][0] == s[..4][0]; }
  }

  /** An opening fence with its trailing newline is dropped. */
  lemma StripFencesOpenStep(s: string)
    requires |s| >= 8 && s[..8] == "```json\n"
    ensures StripFences(s) == StripFences(s[8..])
  {
    assert s[..7] == s[..8][..7];
  }

  /** Text without a backtick passes through unchanged. */
  lemma {:induction false} StripFencesIdentity(s: string)
    requires NoBacktick(s)
    ensures StripFences(s) == s
    decreases |s|
  {
    if s != [] {
      StripFencesKeepStep(s);
      StripFencesIdentity(s[1..]);
      assert [s[0]] + s[1..] == s;
    }
  }

  /** A backtick-free body followed by a closing fence comes back as the body. */
  lemma {:induction false} StripClosingFence(body: string)
    requires NoBacktick(body)
    ensures StripFences(body + "\n```") == body
    decreases |body|
  {
    var s := body + "\n```";
    if body == [] {
      assert s[..4] == "\n```" && s[4..] == [];
      StripFencesCloseStep(s);
    } else {
      assert s[0] == body[0];
      assert |s| >= 4 ==> s[1] != '`' by {
        if |body| >= 2 { assert s[1] == body[1]; } else { assert s[1] == '\n'; }
      }
      StripFencesKeepStep(s);
      assert s[1..] == body[1..] + "\n```";
      StripClosingFence(body[1..]);
      assert [body[0]] + body[1..] == body;
    }
  }

  /** A JSON answer fenced as a ```json block comes back as exactly the unfenced text. */
  lemma StripFencedJson(body: string)
    requires NoBacktick(body)
    ensures StripFences("```json\n" + body + "\n```") == body
  {
    var s := "```json\n" + body + "\n```";
    assert s[..8] == "```json\n";
    StripFencesOpenStep(s);
    assert s[8..] == body + "\n```";
    StripClosingFence(body);
  }

  /** A closing fence, a backtick-free body, a closing fence: both fences go and the body stays. */
  lemma StripBetweenClosingFences(body: string)
    requires NoBacktick(body)
    ensures StripFences("\n```" + body + "\n```") == body
  {
    var s := "\n```" + body + "\n```";
    assert s[..4] == "\n```";
    StripFencesCloseStep(s);
    assert s[4..] == body + "\n```";
    StripClosingFence(body);
  }

  /** A newline just before the opening fence is taken by the closing-fence alternative, so "json" survives. */
  lemma StripFencesLeadingNewline()
    ensures StripFences("\n```json\n{}\n```") == "json\n{}"
  {
    var body := "json\n{}";
    assert NoBacktick(body);
    StripBetweenClosingFences(body);
    assert "\n```" + body + "\n```" == "\n```json\n{}\n```";
  }

  /** The text returned for a request: the SDK text, with code fences removed for Gemini. */
  function ResponseText(req: Request, raw: string): string
  {
    if req.GeminiGenerate? then StripFences(raw) else raw
  }

  /** `generateContent`: build the request, send it (`reply`), read the text. */
  function GenerateContent(o: GenerateOptions, reply: Request -> string): (r: Result<string, AIError>)
    ensures r.Failure? <==> BuildRequest(o).Failure?
    ensures IsProvider(o.provider) ==> (r == Failure(MissingKey(o.provider)) <==> !HasKey(o.settings, o.provider))
    ensures r.Success? && o.provider != GoogleTag ==> r.value == reply(BuildRequest(o).value)
    ensures r.Success? && o.provider == GoogleTag ==> r.value == StripFences(reply(BuildRequest(o).value))
    ensures r.Failure? ==> r.error == BuildRequest(o).error
  {
    match BuildRequest(o)
    case Failure(e) => Failure(e)
    case Success(req) => Success(ResponseText(req, reply(req)))
  }

  /** A missing key or an unknown provider is reported without consulting the network at all. */
  lemma RejectsBeforeNetwork(o: GenerateOptions, reply1: Request -> string, reply2: Request -> string)
    requires !IsProvider(o.provider) || !HasKey(o.settings, o.provider)
    ensures GenerateContent(o, reply1) == GenerateContent(o, reply2)
    ensures GenerateContent(o, reply1).Failure?
  {
  }

  // ----- Full-resume generation -----

  const FullResumeUserPrompt: string := "Generate the JSON."

  /** `FULL_RESUME_PROMPT` with its first `{prompt}`, `{profile}` and `{context}` replaced, in that order. */
  function FillTemplate(template: string, prompt: string, profileJson: string, contextJson: string): string
  {
    Text.ReplaceFirst(Text.ReplaceFirst(Text.ReplaceFirst(template, "{prompt}", prompt), "{profile}", profileJson),
                      "{context}", contextJson)
  }

  /** A template without placeholders is used as it is. */
  lemma FillTemplateWithoutPlaceholders(template: string, prompt: string, profileJson: string, contextJson: string)
    requires forall j: nat :: !Text.OccursAt(template, "{prompt}", j)
    requires forall j: nat :: !Text.OccursAt(template, "{profile}", j)
    requires forall j: nat :: !Text.OccursAt(template, "{context}", j)
    ensures FillTemplate(template, prompt, profileJson, contextJson) == template
  {
    Text.ReplaceFirstAbsent(template, "{prompt}", prompt);
    Text.ReplaceFirstAbsent(template, "{profile}", profileJson);
    Text.ReplaceFirstAbsent(template, "{context}", contextJson);
  }

  /** Substitution is sequential: a user prompt that itself says `{profile}` receives the profile. */
  lemma FillTemplateIsSequential(profileJson: string)
    requires forall j: nat :: !Text.OccursAt(profileJson, "{context}", j)
    ensures FillTemplate("{prompt}", "{profile}", profileJson, "C") == profileJson
  {
    Text.ReplaceFirstAt("{prompt}", "{prompt}", "{profile}", 0);
    assert Text.ReplaceFirst("{prompt}", "{prompt}", "{profile}") == "{profile}";
    Text.ReplaceFirstAt("{profile}", "{profile}", profileJson, 0);
    assert Text.ReplaceFirst("{profile}", "{profile}", profileJson) == profileJson;
    Text.ReplaceFirstAbsent(profileJson, "{context}", "C");
  }

  /** The system prompt of full-resume generation: the filled template followed by the context block. */
  function FullResumeSystem(template: string, prompt: string, context: UserProfileStore.Context,
                            profileJson: string, contextJson: string): string
  {
    SystemPromptWithContext(FillTemplate(template, prompt, profileJson, contextJson),
                            Some(PromptContext(Some(context.summary), Some(context.skills), Some(context.custom))))
  }

  /** The request a known provider receives for a key, a model, a system prompt and a user prompt. */
  function RequestFor(provider: string, apiKey: string, model: string, system: string, prompt: string): Request
  {
    if provider == OpenAITag then OpenAIChat(apiKey, model, system, prompt)
    else if provider == GoogleTag then GeminiGenerate(apiKey, model, GeminiPrompt(system, prompt))
    else AnthropicMessages(apiKey, model, AnthropicMaxTokens, AnthropicSystem(system), prompt)
  }

  /** The options `generateFullResume` passes on, for a given provider tag. */
  function FullResumeOptions(provider: string, template: string, prompt: string, settings: Settings,
                             context: UserProfileStore.Context, profileJson: string, contextJson: string): GenerateOptions
  {
    GenerateOptions(
      FullResumeUserPrompt,
      FillTemplate(template, prompt, profileJson, contextJson),
      provider,
      settings,
      Some(PromptContext(Some(context.summary), Some(context.skills), Some(context.custom))))
  }

  /** Generation followed by `JSON.parse` (the parameter `parse`, none on a syntax error). */
  function ParseReply(text: Result<string, AIError>, parse: string -> Option<Schema.ResumeData>): (r: Result<Schema.ResumeData, AIError>)
    ensures text.Failure? ==> r == Failure(text.error)
    ensures text.Success? ==> (r == Failure(InvalidJson) <==> parse(text.value).None?)
    ensures text.Success? && parse(text.value).Some? ==> r == Success(parse(text.value).value)
  {
    match text
    case Failure(e) => Failure(e)
    case Success(t) =>
      match parse(t)
      case None => Failure(InvalidJson)
      case Some(d) => Success(d)
  }

  /**
   * `generateFullResume` as written: the provider is always OpenAI, whatever
   * the settings select; the OpenAI key is the one checked.
   */
  function GenerateFullResume(template: string, prompt: string, settings: Settings, context: UserProfileStore.Context,
                              profileJson: string, contextJson: string,
                              reply: Request -> string, parse: string -> Option<Schema.ResumeData>): (r: Result<Schema.ResumeData, AIError>)
    ensures r == Failure(MissingKey(OpenAITag)) <==> settings.openaiKey == ""
    ensures r != Failure(InvalidProvider)
    ensures settings.openaiKey != "" ==>
              var req := OpenAIChat(settings.openaiKey, ModelFor(settings, OpenAITag).value,
                                    FullResumeSystem(template, prompt, context, profileJson, contextJson), FullResumeUserPrompt);
              r == ParseReply(Success(reply(req)), parse)
  {
    var o := FullResumeOptions(OpenAITag, template, prompt, settings, context, profileJson, contextJson);
    ParseReply(GenerateContent(o, reply), parse)
  }

  /** The selected provider plays no part in full-resume generation as written. */
  lemma FullResumeIgnoresSelectedProvider(template: string, prompt: string, settings: Settings, context: UserProfileStore.Context,
                                          profileJson: string, contextJson: string,
                                          reply: Request -> string, parse: string -> Option<Schema.ResumeData>, p: string)
    ensures GenerateFullResume(template, prompt, settings.(selectedProvider := p), context, profileJson, contextJson, reply, parse)
            == GenerateFullResume(template, prompt, settings, context, profileJson, contextJson, reply, parse)
  {
    var o1 := FullResumeOptions(OpenAITag, template, prompt, settings.(selectedProvider := p), context, profileJson, contextJson);
    var o2 := FullResumeOptions(OpenAITag, template, prompt, settings, context, profileJson, contextJson);
    assert BuildRequest(o1) == BuildRequest(o2);
  }

  /**
   * A user who selected Google and set only a Google key (so `hasKey` of the
   * selected provider holds) still gets the OpenAI missing-key error; with an
   * OpenAI key as well, the Gemini model name is sent to OpenAI.
   */
  lemma FullResumeSelectedProviderCounterexample(template: string, prompt: string, context: UserProfileStore.Context,
                                                 profileJson: string, contextJson: string,
                                                 reply: Request -> string, parse: string -> Option<Schema.ResumeData>)
    ensures var s := Settings("", "g-key", "", GoogleTag, DefaultGoogleModel);
      && HasKey(s, s.selectedProvider)
      && GenerateFullResume(template, prompt, s, context, profileJson, contextJson, reply, parse) == Failure(MissingKey(OpenAITag))
    ensures var s := Settings("o-key", "g-key", "", GoogleTag, DefaultGoogleModel);
      var req := BuildRequest(FullResumeOptions(OpenAITag, template, prompt, s, context, profileJson, contextJson));
      req.Success? && req.value.OpenAIChat? && req.value.model == DefaultGoogleModel
  {
  }

  /** Full-resume generation with the provider the settings select, as its caller evidently expects. */
  function GenerateFullResumeWithSelected(template: string, prompt: string, settings: Settings, context: UserProfileStore.Context,
                                         profileJson: string, contextJson: string,
                                         reply: Request -> string, parse: string -> Option<Schema.ResumeData>): (r: Result<Schema.ResumeData, AIError>)
    ensures IsProvider(settings.selectedProvider) ==>
              (r == Failure(MissingKey(settings.selectedProvider)) <==> !HasKey(settings, settings.selectedProvider))
    ensures r == Failure(InvalidProvider) <==> !IsProvider(settings.selectedProvider)
    ensures HasKey(settings, settings.selectedProvider) ==>
              var p := settings.selectedProvider;
              var req := RequestFor(p, KeyFor(settings, p).value, ModelFor(settings, p).value,
                                    FullResumeSystem(template, prompt, context, profileJson, contextJson), FullResumeUserPrompt);
              r == ParseReply(Success(ResponseText(req, reply(req))), parse)
  {
    var o := FullResumeOptions(settings.selectedProvider, template, prompt, settings, context, profileJson, contextJson);
    ParseReply(GenerateContent(o, reply), parse)
  }

  /** When `hasKey` holds for the selected provider, the corrected generation reaches that provider with its own key. */
  lemma SelectedProviderIsUsed(template: string, prompt: string, settings: Settings, context: UserProfileStore.Context,
                               profileJson: string, contextJson: string)
    requires HasKey(settings, settings.selectedProvider)
    ensures var req := BuildRequest(FullResumeOptions(settings.selectedProvider, template, prompt, settings, context, profileJson, contextJson));
      && req.Success?
      && req.value.Provider() == settings.selectedProvider
      && req.value.apiKey == KeyFor(settings, settings.selectedProvider).value
      && req.value.apiKey != ""
  {
  }
}
