/** Text-model helpers of `src/ollama_text_utils.py`: post-processing of model
    output (`remove_think_tags`, `extract_prompt_tags`), the two provider calls
    with their fixed result shape, the provider dispatch and the three prompt
    builders.

    The HTTP and SDK calls are oracles (`Backends`): each request yields a
    `Response`, delivered text or the message of the exception the call raised.
    The side effects the source performs besides the call (the unload request
    to Ollama and the two-second sleep) are counted in ghost fields of a
    `Gateway`. */
module TextUtils {
  import opened Wrappers
  import opened Strings

  // ---------------------------------------------------------------------
  // remove_think_tags: re.sub(r"<think>.*?</think>", "", text, flags=re.DOTALL).strip()
  // ---------------------------------------------------------------------

  const ThinkOpen := "<think>"
  const ThinkClose := "</think>"

  /** The pattern `<think>.*?</think>` tried at position `p`: it matches when a
      `<think>` starts at `p` and some `</think>` starts after it; the match
      then ends with the FIRST such `</think>` (the lazy `.*?`), whatever
      characters, newlines included, lie between. */
  function ThinkBlockAt(s: string, p: nat): (r: Option<nat>)
    requires p <= |s|
    ensures r.None? ==> !OccursAt(s, ThinkOpen, p)
                        || forall c :: p + |ThinkOpen| <= c ==> !OccursAt(s, ThinkClose, c)
    ensures r.Some? ==> OccursAt(s, ThinkOpen, p) && p + |ThinkOpen| + |ThinkClose| <= r.value <= |s|
                        && OccursAt(s, ThinkClose, r.value - |ThinkClose|)
    ensures r.Some? ==> forall k :: p + |ThinkOpen| <= k < r.value - |ThinkClose| ==> !OccursAt(s, ThinkClose, k)
  {
    if OccursAt(s, ThinkOpen, p) then
      match IndexOf(s, ThinkClose, p + |ThinkOpen|)
      case Some(c) => Some(c + |ThinkClose|)
      case None => None
    else None
  }

  /** The substitution pass of `re.sub` over `s[p..]`: scanning left to right,
      a block that matches where the scan stands is dropped and the scan
      resumes after it; any other character is kept. */
  function ScrubFrom(s: string, p: nat): (r: string)
    requires p <= |s|
    ensures |r| <= |s| - p
    decreases |s| - p
  {
    if p == |s| then ""
    else match ThinkBlockAt(s, p)
      case Some(e) => ScrubFrom(s, e)
      case None => [s[p]] + ScrubFrom(s, p + 1)
  }

  /** `remove_think_tags`: the blocks removed, then the result stripped. */
  function RemoveThinkTags(text: string): (r: string)
    ensures Trimmed(r)
    ensures |r| <= |text|
  {
    var scrubbed := ScrubFrom(text, 0);
    var r := Strip(scrubbed);
    assert |r| <= |scrubbed|;
    r
  }

  /** Where no block matches, the text is kept character for character. */
  lemma {:induction false} ScrubUntouched(s: string, p: nat)
    requires p <= |s|
    requires forall k :: p <= k <= |s| ==> ThinkBlockAt(s, k).None?
    ensures ScrubFrom(s, p) == s[p..]
    decreases |s| - p
  {
    if p < |s| {
      ScrubUntouched(s, p + 1);
      assert s[p..] == [s[p]] + s[p + 1..];
    }
  }

  /** The first block that matches at or after `p` is removed, from its
      `<think>` through the nearest `</think>`; the text before it is kept and
      the scan resumes right after that `</think>`. */
  lemma {:induction false} ScrubFirstBlock(s: string, p: nat, b: nat)
    requires p <= b <= |s|
    requires ThinkBlockAt(s, b).Some?
    requires forall k :: p <= k < b ==> ThinkBlockAt(s, k).None?
    ensures ScrubFrom(s, p) == s[p..b] + ScrubFrom(s, ThinkBlockAt(s, b).value)
    decreases b - p, 1
  {
    if p < b {
      ScrubPastKept(s, p, b);
    } else {
      ScrubSkips(s, p);
    }
  }

  /** The step of `ScrubFirstBlock` over a kept character. */
  lemma {:induction false} ScrubPastKept(s: string, p: nat, b: nat)
    requires p < b <= |s|
    requires ThinkBlockAt(s, b).Some?
    requires forall k :: p <= k < b ==> ThinkBlockAt(s, k).None?
    ensures ScrubFrom(s, p) == s[p..b] + ScrubFrom(s, ThinkBlockAt(s, b).value)
    decreases b - p, 0
  {
    var rest := ScrubFrom(s, ThinkBlockAt(s, b).value);
    calc {
      ScrubFrom(s, p);
    == { ScrubKeeps(s, p); }
      [s[p]] + ScrubFrom(s, p + 1);
    == { ScrubFirstBlock(s, p + 1, b); }
      [s[p]] + (s[p + 1..b] + rest);
    == { SliceCons(s, p, b); }
      s[p..b] + rest;
    }
  }

  lemma SliceCons<T>(s: seq<T>, p: nat, b: nat)
    requires p < b <= |s|
    ensures s[p..b] == [s[p]] + s[p + 1..b]
  {
  }

  /** A character where no block matches is kept. */
  lemma ScrubKeeps(s: string, p: nat)
    requires p < |s| && ThinkBlockAt(s, p).None?
    ensures ScrubFrom(s, p) == [s[p]] + ScrubFrom(s, p + 1)
  {
  }

  /** A block that matches is dropped. */
  lemma ScrubSkips(s: string, p: nat)
    requires p <= |s| && ThinkBlockAt(s, p).Some?
    ensures ScrubFrom(s, p) == ScrubFrom(s, ThinkBlockAt(s, p).value)
  {
    assert p < |s|;
  }

  /** Text containing no `<think>` is only stripped. */
  lemma NoThinkOnlyStrips(text: string)
    requires forall k :: 0 <= k <= |text| ==> !OccursAt(text, ThinkOpen, k)
    ensures RemoveThinkTags(text) == Strip(text)
  {
    ScrubUntouched(text, 0);
  }

  /** A `<think>` with no `</think>` after it is left in place, together with
      everything that follows it. */
  lemma UnclosedThinkKept(s: string, b: nat)
    requires b <= |s|
    requires forall c :: b + |ThinkOpen| <= c ==> !OccursAt(s, ThinkClose, c)
    ensures ScrubFrom(s, b) == s[b..]
  {
    ScrubUntouched(s, b);
  }

  // ---------------------------------------------------------------------
  // extract_prompt_tags: re.search(r'<prompt>(.*?)</prompt>', text, re.DOTALL)
  // ---------------------------------------------------------------------

  const PromptOpen := "<prompt>"
  const PromptClose := "</prompt>"

  /** The pattern `<prompt>(.*?)</prompt>` tried at position `p`: the end of
      its group, which is the start of the nearest `</prompt>` after the
      `<prompt>` at `p`. */
  function PromptGroupEnd(s: string, p: nat): (r: Option<nat>)
    requires p <= |s|
    ensures r.Some? ==> OccursAt(s, PromptOpen, p) && p + |PromptOpen| <= r.value
                        && OccursAt(s, PromptClose, r.value)
                        && forall k :: p + |PromptOpen| <= k < r.value ==> !OccursAt(s, PromptClose, k)
    ensures r.None? ==> !OccursAt(s, PromptOpen, p)
                        || forall k :: p + |PromptOpen| <= k ==> !OccursAt(s, PromptClose, k)
  {
    if OccursAt(s, PromptOpen, p) then IndexOf(s, PromptClose, p + |PromptOpen|) else None
  }

  /** `re.search` from `p`: the leftmost position where the pattern matches,
      given as the bounds of its group. */
  function SearchPrompt(s: string, p: nat): (r: Option<(nat, nat)>)
    requires p <= |s|
    ensures r.Some? ==> p + |PromptOpen| <= r.value.0 <= r.value.1 <= |s|
                        && PromptGroupEnd(s, r.value.0 - |PromptOpen|) == Some(r.value.1)
    ensures r.None? ==> forall k :: p <= k <= |s| ==> PromptGroupEnd(s, k).None?
    decreases |s| - p
  {
    match PromptGroupEnd(s, p)
    case Some(e) => Some((p + |PromptOpen|, e))
    case None => if p == |s| then None else SearchPrompt(s, p + 1)
  }

  /** `extract_prompt_tags`: the stripped group of the first match, if any.
      A result is always a stripped substring of the text. */
  function ExtractPromptTags(text: string): (r: Option<string>)
    ensures r.Some? ==> Trimmed(r.value)
    ensures r.Some? ==> exists a, b :: 0 <= a <= b <= |text| && r.value == Strip(text[a..b])
  {
    match SearchPrompt(text, 0)
    case None => None
    case Some((a, b)) => Some(Strip(text[a..b]))
  }

  /** Positions where the pattern cannot match do not change the search. */
  lemma {:induction false} SearchSkips(s: string, p: nat, q: nat)
    requires p <= q <= |s|
    requires forall k :: p <= k < q ==> PromptGroupEnd(s, k).None?
    ensures SearchPrompt(s, p) == SearchPrompt(s, q)
    decreases q - p
  {
    if p < q {
      SearchSkips(s, p + 1, q);
    }
  }

  /** There is no result exactly when no `<prompt>` is followed, later on, by
      a `</prompt>`. */
  lemma ExtractPromptNoneIff(text: string)
    ensures ExtractPromptTags(text).None? <==>
            !exists i: nat, j: nat :: OccursAt(text, PromptOpen, i) && i + |PromptOpen| <= j
                            && OccursAt(text, PromptClose, j)
  {
    if ExtractPromptTags(text).None? {
      forall i: nat, j: nat | OccursAt(text, PromptOpen, i) && i + |PromptOpen| <= j
        ensures !OccursAt(text, PromptClose, j)
      {
        assert PromptGroupEnd(text, i).None?;
      }
    } else {
      var (a, b) := SearchPrompt(text, 0).value;
      assert OccursAt(text, PromptOpen, a - |PromptOpen|) && OccursAt(text, PromptClose, b);
    }
  }

  /** Reference reading of the search: take the leftmost `<prompt>`; the
      result is the stripped text up to the nearest `</prompt>` after it, and
      there is none when that `<prompt>` has no `</prompt>` after it (then no
      later `<prompt>` has one either). */
  lemma ExtractPromptLeftmost(text: string)
    ensures ExtractPromptTags(text) ==
            match IndexOf(text, PromptOpen, 0)
            case None => None
            case Some(o) =>
              match IndexOf(text, PromptClose, o + |PromptOpen|)
              case None => None
              case Some(c) => Some(Strip(text[o + |PromptOpen|..c]))
  {
    match IndexOf(text, PromptOpen, 0) {
      case None =>
        NoOpenNoMatch(text);
        NoMatchFrom(text, 0);
      case Some(o) =>
        LeftmostSearch(text, o);
    }
  }

  /** The search from the start stops at the leftmost `<prompt>`: it matches
      there with the nearest `</prompt>`, or nowhere at all. */
  lemma LeftmostSearch(text: string, o: nat)
    requires IndexOf(text, PromptOpen, 0) == Some(o)
    ensures IndexOf(text, PromptClose, o + |PromptOpen|).None? ==> SearchPrompt(text, 0).None?
    ensures IndexOf(text, PromptClose, o + |PromptOpen|).Some? ==>
              SearchPrompt(text, 0) == Some((o + |PromptOpen|, IndexOf(text, PromptClose, o + |PromptOpen|).value))
  {
    SearchSkips(text, 0, o);
    if IndexOf(text, PromptClose, o + |PromptOpen|).None? {
      UnclosedNoMatch(text, o);
      NoMatchFrom(text, o);
    } else {
      assert PromptGroupEnd(text, o) == IndexOf(text, PromptClose, o + |PromptOpen|);
    }
  }

  /** Without a `<prompt>` the pattern matches nowhere. */
  lemma NoOpenNoMatch(s: string)
    requires IndexOf(s, PromptOpen, 0).None?
    ensures forall k :: 0 <= k <= |s| ==> PromptGroupEnd(s, k).None?
  {
    forall k | 0 <= k <= |s| ensures PromptGroupEnd(s, k).None? {
      assert !OccursAt(s, PromptOpen, k);
    }
  }

  /** A `<prompt>` with no `</prompt>` after it leaves no match from there on:
      a later `<prompt>` would need a `</prompt>` even further on. */
  lemma UnclosedNoMatch(s: string, o: nat)
    requires OccursAt(s, PromptOpen, o)
    requires IndexOf(s, PromptClose, o + |PromptOpen|).None?
    ensures forall k :: o <= k <= |s| ==> PromptGroupEnd(s, k).None?
  {
    forall k | o <= k <= |s| ensures PromptGroupEnd(s, k).None? {
      if OccursAt(s, PromptOpen, k) {
        assert forall c :: k + |PromptOpen| <= c ==> !OccursAt(s, PromptClose, c);
      }
    }
  }

  /** Where the pattern matches nowhere from `p` on, the search finds nothing. */
  lemma NoMatchFrom(s: string, p: nat)
    requires p <= |s|
    requires forall k :: p <= k <= |s| ==> PromptGroupEnd(s, k).None?
    ensures SearchPrompt(s, p).None?
  {
    SearchSkips(s, p, |s|);
    assert SearchPrompt(s, |s|).None?;
  }

  // ---------------------------------------------------------------------
  // generate_text_ollama / generate_text_gemini / generate_text_with_provider
  // ---------------------------------------------------------------------

  /** The keys of `config["text"]` the calls read. */
  datatype TextConfig = TextConfig(
    provider: string,      // config["text"]["provider"]
    ollamaModel: string,   // config["text"]["ollama"]["model"]
    ollamaUrl: string,     // config["text"]["ollama"]["api_url"]
    geminiModel: string,   // config["text"]["gemini"]["model"]
    geminiApiKey: string)  // config["text"]["gemini"]["api_key"]

  /** The JSON body posted to Ollama; `system` is present only when set. */
  datatype OllamaPayload = OllamaPayload(
    model: string, prompt: string, stream: bool, temperature: real, system: Option<string>)

  datatype OllamaRequest = OllamaRequest(url: string, payload: OllamaPayload)

  /** One `generate_content` call of the Gemini client: the key and model it
      was configured with, the temperature if a generation config was given,
      and the text sent. */
  datatype GeminiRequest = GeminiRequest(
    apiKey: string, model: string, temperature: Option<real>, contents: string)

  /** The two remote services, as oracles. */
  datatype Backends = Backends(ollama: OllamaRequest -> Response, gemini: GeminiRequest -> Response)

  /** The dict `{system_prompt, user_prompt, response}` every call returns. */
  datatype Exchange = Exchange(systemPrompt: string, userPrompt: string, response: string)

  datatype Provider = Ollama | Gemini

  const Temperature: real := 0.7

  /** Python truthiness of the optional `system` argument. */
  predicate Truthy(system: Option<string>) {
    system.Some? && system.value != ""
  }

  /** `system or ""`. */
  function SystemOrEmpty(system: Option<string>): string {
    if Truthy(system) then system.value else ""
  }

  /** The response field: the delivered text, or `"Error: " + str(e)`. */
  function ResponseText(reply: Response): string {
    match reply
    case Delivered(text) => text
    case Failed(reason) => "Error: " + reason
  }

  function OllamaRequestFor(cfg: TextConfig, prompt: string, system: Option<string>): OllamaRequest {
    OllamaRequest(cfg.ollamaUrl,
      OllamaPayload(cfg.ollamaModel, prompt, false, Temperature,
                    if Truthy(system) then system else None))
  }

  function GeminiRequestFor(cfg: TextConfig, prompt: string, system: Option<string>): GeminiRequest {
    if Truthy(system) then
      GeminiRequest(cfg.geminiApiKey, cfg.geminiModel, Some(Temperature),
                    system.value + "\n\nUser: " + prompt)
    else
      GeminiRequest(cfg.geminiApiKey, cfg.geminiModel, None, prompt)
  }

  /** The closed dispatch on the provider name. */
  function SelectProvider(name: string): (p: Option<Provider>)
    ensures p == Some(Ollama) <==> name == "ollama"
    ensures p == Some(Gemini) <==> name == "gemini"
    ensures p.None? <==> name != "ollama" && name != "gemini"
  {
    if name == "ollama" then Some(Ollama)
    else if name == "gemini" then Some(Gemini)
    else None
  }

  /** What `generate_text_with_provider` returns: an unknown provider raises
      ValueError; otherwise the record always carries the caller's system
      text (or "") and prompt unchanged, and a failed call shows up only as an
      "Error: " response. */
  function ProviderExchange(provider: string, prompt: string, cfg: TextConfig,
                            system: Option<string>, backends: Backends): (r: Result<Exchange>)
    ensures r.Err? <==> SelectProvider(provider).None?
    ensures r.Err? ==> r.error == ValueError("Unsupported text provider: " + provider)
    ensures r.Ok? ==> r.value.systemPrompt == SystemOrEmpty(system) && r.value.userPrompt == prompt
    ensures provider == "ollama" ==>
              r == Ok(Exchange(SystemOrEmpty(system), prompt,
                               ResponseText(backends.ollama(OllamaRequestFor(cfg, prompt, system)))))
    ensures provider == "gemini" ==>
              r == Ok(Exchange(SystemOrEmpty(system), prompt,
                               ResponseText(backends.gemini(GeminiRequestFor(cfg, prompt, system)))))
    ensures provider == "ollama" && backends.ollama(OllamaRequestFor(cfg, prompt, system)).Failed? ==>
              r == Ok(Exchange(SystemOrEmpty(system), prompt,
                               "Error: " + backends.ollama(OllamaRequestFor(cfg, prompt, system)).reason))
    ensures provider == "gemini" && backends.gemini(GeminiRequestFor(cfg, prompt, system)).Failed? ==>
              r == Ok(Exchange(SystemOrEmpty(system), prompt,
                               "Error: " + backends.gemini(GeminiRequestFor(cfg, prompt, system)).reason))
  {
    match SelectProvider(provider)
    case None => Err(ValueError("Unsupported text provider: " + provider))
    case Some(Ollama) =>
      Ok(Exchange(SystemOrEmpty(system), prompt, ResponseText(backends.ollama(OllamaRequestFor(cfg, prompt, system)))))
    case Some(Gemini) =>
      Ok(Exchange(SystemOrEmpty(system), prompt, ResponseText(backends.gemini(GeminiRequestFor(cfg, prompt, system)))))
  }

  // ---------------------------------------------------------------------
  // Prompt builders of understand_goal, create_initial_prompt, refine_prompt
  // ---------------------------------------------------------------------

  const GoalAnalystSystem :=
    "You are an expert art director and creative consultant. "
    + "Analyze the following goal for an image generation project. "
    + "Break down the key visual elements, style, mood, composition, and technical aspects we need to achieve. "
    + "Be specific and detailed in your analysis. "
    + "Do not generate any prompts yet - focus only on analysis."

  const PromptEngineerSystem :=
    "You are a T5 prompt engineering expert specializing in image generation. "
    + "You will create a detailed prompt that captures all the analyzed elements. "
    + "You can think through your process outside the prompt tags. "
    + "The final prompt MUST be wrapped in <prompt></prompt> tags. "
    + "Only the text within these tags will be used for image generation."

  const PromptOptimizerSystem :=
    "You are a T5 prompt optimization expert. "
    + "Analyze the results and create an improved prompt. "
    + "Keep language that produced aligned elements, but rework sections for unaligned elements. "
    + "You can think through your process outside the prompt tags. "
    + "The final prompt MUST be wrapped in <prompt></prompt> tags. "
    + "Only the text within these tags will be used for image generation."

  const GoalAnalysisTail := "\n\nProvide a detailed analysis of the visual elements we need to create."

  const Reminder := "Remember: Only the text within the prompt tags will be used for generation."

  const InitialPromptTail :=
    "\n\nThink through how to create a T5 prompt that captures these elements. "
    + "Explain your approach, then provide the final prompt wrapped in <prompt></prompt> tags.\n\n"
    + Reminder

  const RefineTail :=
    "\n\nThink through how to improve the prompt:\n"
    + "1. Identify what elements worked well\n"
    + "2. Determine what needs to change\n"
    + "3. Create an improved version\n\n"
    + "Explain your thinking, then provide the final prompt wrapped in <prompt></prompt> tags.\n"
    + Reminder

  function GoalAnalysisRequest(goal: string): string {
    "Goal: " + goal + GoalAnalysisTail
  }

  function InitialPromptRequest(goal: string, analysis: string): string {
    "Goal: " + goal + "\n\nAnalysis: " + analysis + InitialPromptTail
  }

  function RefineRequest(originalPrompt: string, goal: string, description: string, alignment: string): string {
    "Goal: " + goal + "\n\nPrevious Prompt: " + originalPrompt
    + "\n\nImage Description: " + description
    + "\n\nAlignment Analysis: " + alignment + RefineTail
  }

  /** The text strictly between a known prefix and a known suffix. */
  function Between(s: string, prefix: string, suffix: string): (r: Option<string>)
    ensures r.Some? ==> s == prefix + r.value + suffix
  {
    if |prefix| + |suffix| <= |s| && s[..|prefix|] == prefix && s[|s| - |suffix|..] == suffix then
      var mid := s[|prefix|..|s| - |suffix|];
      assert s == s[..|prefix|] + mid + s[|s| - |suffix|..];
      Some(mid)
    else None
  }

  /** Framing a text and taking the frame off again gives the text back. */
  lemma {:induction false} BetweenFramed(prefix: string, mid: string, suffix: string)
    ensures Between(prefix + mid + suffix, prefix, suffix) == Some(mid)
  {
    var s := prefix + mid + suffix;
    assert s[..|prefix|] == prefix;
    assert s[|s| - |suffix|..] == suffix;
    assert s[|prefix|..|s| - |suffix|] == mid;
  }

  /** The partner of the three prompt builders: taking the fixed frame
      ("Goal: " in front, the builder's closing text behind) off a built
      prompt gives back the goal and the caller's texts, in the order the
      template places them, so no builder drops or reorders an argument. */
  lemma BuildersAreFixedTemplates(goal: string, analysis: string, originalPrompt: string,
                                  description: string, alignment: string)
    ensures Between(GoalAnalysisRequest(goal), "Goal: ", GoalAnalysisTail) == Some(goal)
    ensures Between(InitialPromptRequest(goal, analysis), "Goal: ", InitialPromptTail)
            == Some(goal + "\n\nAnalysis: " + analysis)
    ensures Between(RefineRequest(originalPrompt, goal, description, alignment), "Goal: ", RefineTail)
            == Some(goal + "\n\nPrevious Prompt: " + originalPrompt + "\n\nImage Description: "
                    + description + "\n\nAlignment Analysis: " + alignment)
  {
    BetweenFramed("Goal: ", goal, GoalAnalysisTail);
    InitialPromptFramed(goal, analysis);
    RefineFramed(originalPrompt, goal, description, alignment);
  }

  lemma InitialPromptFramed(goal: string, analysis: string)
    ensures Between(InitialPromptRequest(goal, analysis), "Goal: ", InitialPromptTail)
            == Some(goal + "\n\nAnalysis: " + analysis)
  {
    var L := "\n\nAnalysis: ";
    var mid := goal + L + analysis;
    AppendAssociates("Goal: ", goal + L, analysis);
    AppendAssociates("Goal: ", goal, L);
    BetweenFramed("Goal: ", mid, InitialPromptTail);
  }

  lemma RefineFramed(originalPrompt: string, goal: string, description: string, alignment: string)
    ensures Between(RefineRequest(originalPrompt, goal, description, alignment), "Goal: ", RefineTail)
            == Some(goal + "\n\nPrevious Prompt: " + originalPrompt + "\n\nImage Description: "
                    + description + "\n\nAlignment Analysis: " + alignment)
  {
    var L1, L2, L3 := "\n\nPrevious Prompt: ", "\n\nImage Description: ", "\n\nAlignment Analysis: ";
    var mid := goal + L1 + originalPrompt + L2 + description + L3 + alignment;
    AppendAssociates("Goal: ", goal + L1 + originalPrompt + L2 + description + L3, alignment);
    AppendAssociates("Goal: ", goal + L1 + originalPrompt + L2 + description, L3);
    AppendAssociates("Goal: ", goal + L1 + originalPrompt + L2, description);
    AppendAssociates("Goal: ", goal + L1 + originalPrompt, L2);
    AppendAssociates("Goal: ", goal + L1, originalPrompt);
    AppendAssociates("Goal: ", goal, L1);
    BetweenFramed("Goal: ", mid, RefineTail);
  }

  /** The side effects of the text calls on the world outside the program. */
  class Gateway {
    /** Requests posted to Ollama's generate endpoint, in order. */
    ghost var ollamaSent: seq<OllamaRequest>
    /** Calls made through the Gemini client, in order. */
    ghost var geminiSent: seq<GeminiRequest>
    /** Models for which the `keep_alive: 0` unload request was issued. */
    ghost var unloads: seq<string>
    /** Number of `time.sleep(2)` pauses taken. */
    ghost var pauses: nat

    constructor ()
      ensures ollamaSent == [] && geminiSent == [] && unloads == [] && pauses == 0
    {
      ollamaSent, geminiSent, unloads, pauses := [], [], [], 0;
    }

    /** The effect of one `generate_text_with_provider(provider, prompt, config,
        system)` call on the world: "ollama" posts one request, then unloads
        the model and pauses; "gemini" makes one client call, then pauses; any
        other name raises before doing either. */
    twostate predicate Exchanged(provider: string, prompt: string, cfg: TextConfig, system: Option<string>)
      reads this
    {
      if provider == "ollama" then
        && ollamaSent == old(ollamaSent) + [OllamaRequestFor(cfg, prompt, system)]
        && unloads == old(unloads) + [cfg.ollamaModel]
        && geminiSent == old(geminiSent) && pauses == old(pauses) + 1
      else if provider == "gemini" then
        && geminiSent == old(geminiSent) + [GeminiRequestFor(cfg, prompt, system)]
        && ollamaSent == old(ollamaSent) && unloads == old(unloads) && pauses == old(pauses) + 1
      else
        && ollamaSent == old(ollamaSent) && geminiSent == old(geminiSent)
        && unloads == old(unloads) && pauses == old(pauses)
    }

    /** `generate_text_ollama`: never raises; issues exactly one unload of the
        configured model and one pause, on success and on failure alike. */
    method GenerateOllama(prompt: string, cfg: TextConfig, system: Option<string>,
                          backend: OllamaRequest -> Response) returns (ex: Exchange)
      modifies this
      ensures ex == Exchange(SystemOrEmpty(system), prompt, ResponseText(backend(OllamaRequestFor(cfg, prompt, system))))
      ensures ollamaSent == old(ollamaSent) + [OllamaRequestFor(cfg, prompt, system)]
      ensures OllamaRequestFor(cfg, prompt, system).payload.system.Some? <==> Truthy(system)
      ensures unloads == old(unloads) + [cfg.ollamaModel]
      ensures pauses == old(pauses) + 1
      ensures geminiSent == old(geminiSent)
    {
      var payload := OllamaPayload(cfg.ollamaModel, prompt, false, Temperature, None);
      if Truthy(system) {
        payload := payload.(system := system);
      }
      var request := OllamaRequest(cfg.ollamaUrl, payload);
      var reply := backend(request);
      ollamaSent := ollamaSent + [request];
      match reply {
        case Delivered(text) =>
          ex := Exchange(SystemOrEmpty(system), prompt, text);
        case Failed(reason) =>
          ex := Exchange(SystemOrEmpty(system), prompt, "Error: " + reason);
      }
      // the `finally` block
      unloads := unloads + [cfg.ollamaModel];
      pauses := pauses + 1;
    }

    /** `generate_text_gemini`: never raises; with a system text the two are
        combined into one message; one pause, on success and on failure. */
    method GenerateGemini(prompt: string, cfg: TextConfig, system: Option<string>,
                          backend: GeminiRequest -> Response) returns (ex: Exchange)
      modifies this
      ensures ex == Exchange(SystemOrEmpty(system), prompt, ResponseText(backend(GeminiRequestFor(cfg, prompt, system))))
      ensures geminiSent == old(geminiSent) + [GeminiRequestFor(cfg, prompt, system)]
      ensures Truthy(system) ==> GeminiRequestFor(cfg, prompt, system).contents == system.value + "\n\nUser: " + prompt
      ensures !Truthy(system) ==> GeminiRequestFor(cfg, prompt, system).contents == prompt
      ensures pauses == old(pauses) + 1
      ensures ollamaSent == old(ollamaSent) && unloads == old(unloads)
    {
      var request;
      if Truthy(system) {
        request := GeminiRequest(cfg.geminiApiKey, cfg.geminiModel, Some(Temperature),
                                 system.value + "\n\nUser: " + prompt);
      } else {
        request := GeminiRequest(cfg.geminiApiKey, cfg.geminiModel, None, prompt);
      }
      var reply := backend(request);
      geminiSent := geminiSent + [request];
      match reply {
        case Delivered(text) =>
          ex := Exchange(SystemOrEmpty(system), prompt, text);
        case Failed(reason) =>
          ex := Exchange(SystemOrEmpty(system), prompt, "Error: " + reason);
      }
      // the `finally` block
      pauses := pauses + 1;
    }

    /** `generate_text_with_provider`: "ollama" and "gemini" go to their call;
        any other name raises ValueError and calls neither. */
    method GenerateWithProvider(provider: string, prompt: string, cfg: TextConfig,
                                system: Option<string>, backends: Backends) returns (r: Result<Exchange>)
      modifies this
      ensures r == ProviderExchange(provider, prompt, cfg, system, backends)
      ensures Exchanged(provider, prompt, cfg, system)
      ensures SelectProvider(provider).None? ==> unchanged(this)
    {
      if provider == "ollama" {
        var ex := GenerateOllama(prompt, cfg, system, backends.ollama);
        r := Ok(ex);
      } else if provider == "gemini" {
        var ex := GenerateGemini(prompt, cfg, system, backends.gemini);
        r := Ok(ex);
      } else {
        r := Err(ValueError("Unsupported text provider: " + provider));
      }
    }

    /** `understand_goal` of this module: the goal-analysis request with the
        art-director system text, through the configured provider. */
    method UnderstandGoal(goal: string, cfg: TextConfig, backends: Backends) returns (r: Result<Exchange>)
      modifies this
      ensures r == ProviderExchange(cfg.provider, GoalAnalysisRequest(goal), cfg, Some(GoalAnalystSystem), backends)
      ensures r.Ok? ==> r.value.systemPrompt == GoalAnalystSystem && r.value.userPrompt == GoalAnalysisRequest(goal)
      ensures Exchanged(cfg.provider, GoalAnalysisRequest(goal), cfg, Some(GoalAnalystSystem))
    {
      r := GenerateWithProvider(cfg.provider, GoalAnalysisRequest(goal), cfg, Some(GoalAnalystSystem), backends);
    }

    /** `create_initial_prompt`: the first-prompt request with the
        prompt-engineer system text, through the configured provider. */
    method CreateInitialPrompt(goal: string, analysis: string, cfg: TextConfig, backends: Backends)
      returns (r: Result<Exchange>)
      modifies this
      ensures r == ProviderExchange(cfg.provider, InitialPromptRequest(goal, analysis), cfg,
                                    Some(PromptEngineerSystem), backends)
      ensures r.Ok? ==> r.value.systemPrompt == PromptEngineerSystem
                        && r.value.userPrompt == InitialPromptRequest(goal, analysis)
      ensures Exchanged(cfg.provider, InitialPromptRequest(goal, analysis), cfg, Some(PromptEngineerSystem))
    {
      r := GenerateWithProvider(cfg.provider, InitialPromptRequest(goal, analysis), cfg,
                                Some(PromptEngineerSystem), backends);
    }

    /** `refine_prompt`: the refinement request with the prompt-optimizer
        system text, through the configured provider. */
    method RefinePrompt(originalPrompt: string, goal: string, description: string, alignment: string,
                        cfg: TextConfig, backends: Backends) returns (r: Result<Exchange>)
      modifies this
      ensures r == ProviderExchange(cfg.provider, RefineRequest(originalPrompt, goal, description, alignment),
                                    cfg, Some(PromptOptimizerSystem), backends)
      ensures r.Ok? ==> r.value.systemPrompt == PromptOptimizerSystem
                        && r.value.userPrompt == RefineRequest(originalPrompt, goal, description, alignment)
      ensures Exchanged(cfg.provider, RefineRequest(originalPrompt, goal, description, alignment), cfg,
                        Some(PromptOptimizerSystem))
    {
      r := GenerateWithProvider(cfg.provider, RefineRequest(originalPrompt, goal, description, alignment),
                                cfg, Some(PromptOptimizerSystem), backends);
    }
  }
}
