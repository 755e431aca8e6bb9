# AgenticVisionForge core, modelled in Dafny

AgenticVisionForge drives an image-generation loop. A text model analyses a
goal and proposes a first prompt. ComfyUI renders an image for the prompt. A
vision model describes the image. A text model refines the prompt, and every
round is logged as JSON in the run directory. This project models the logic
of that loop and proves what it promises. Network, disk and clock are
replaced by parameters.

The model has one Dafny module per source file, plus shared pieces:

- `TextUtils` (`src/ollama_text_utils.py`):
  - `remove_think_tags` and `extract_prompt_tags` as hand-written scanners
    for their two regular expressions.
  - The two provider calls as methods of a `Gateway` class. Its ghost fields
    record the requests sent, the Ollama unload requests and the two-second
    pauses.
  - The provider dispatch and the three user-prompt builders.
- `EnvVars` (`src/utils.py`): `replace_env_vars` over a JSON-like tree. The
  environment is a `map<string, string>`. The string branch is a method with
  the source's loop, proved against a fold over the matched names.
- `SinglePass` (`src/utils.py`): when the sequential `str.replace` loop equals
  a single-pass expansion of the placeholders, and an input where it does
  not.
- `GenerateImage` (`src/generate_image.py`): the loaded workflow is a
  `Workflow` object patched in place, and the ComfyUI server is a
  `ComfyServer` object that records every queued request.
- `Orchestrator` (`src/orchestrator.py`):
  - `understand_goal`'s line split.
  - The `run_iterations` loop as a method with a `while` loop. It is proved
    against `Iterations`, a recursive description of the logs written, the
    requests queued and the exception that ends the run.
  - The run directory is a class whose files are a sequence of records.
    `config["analysis_prompt"]` is a mutable field of the run configuration.
- Shared: `Wrappers` holds Option, Result, the kinds of Python exception and
  transport responses. `Strings` models Python `str.strip`, `find`,
  `split`/`join` on one character, `str(int)` and `os.path.join`. `Json`
  models dicts that keep insertion order, with subscript and subscript
  assignment.

Python exceptions are modelled as `Err` values of the kind the source raises:
ValueError, KeyError, TypeError, a TransportError for a network call that
raised, and an OSError for a file that cannot be opened.

What the code does, and the model with it:
- an iteration record holds exactly `{iteration, prompt_before, analysis,
  prompt_after, image_path}` (plus a timestamp, not modelled);
- only nodes 6 and 9 of the workflow template are patched;
- the image path is `output_dir/iteration_<n>.png`. `output_dir` is a
  parameter of the model; `main.py:78` sets it to `<run>/generations`
  before the run starts;
- `extract_prompt_tags` returns None when no tagged prompt is found, with
  no fallback;
- `run_iterations` never calls `extract_prompt_tags` or `remove_think_tags`.

Two places in the code cannot run as written. The model follows their evident
intent:
- `src/orchestrator.py:27` calls `.strip()` on the dict that
  `generate_text_*` returns. The model splits the dict's `response` text.
- `src/orchestrator.py:69` calls `refine_prompt` with three arguments, but
  the function takes five. The model treats refinement as a function from
  (prompt, analysis) to the next prompt.

## Model

| member | source | states |
|---|---|---|
| TextUtils.ThinkBlockAt | src/ollama_text_utils.py:11 | `<think>.*?</think>` matches at p exactly when a `<think>` starts at p and some `</think>` follows; the match ends at the first such `</think>` (lazy, newlines included) |
| TextUtils.ScrubFrom | src/ollama_text_utils.py:11 | the `re.sub` pass never makes the text longer |
| TextUtils.RemoveThinkTags | src/ollama_text_utils.py:6-11 | the result has no whitespace at either end and is no longer than the input |
| TextUtils.ScrubUntouched | src/ollama_text_utils.py:11 | where no block matches, the text is kept character for character |
| TextUtils.ScrubFirstBlock | src/ollama_text_utils.py:11 | the first block removed runs from its `<think>` to the nearest `</think>` after it; the text before it is kept and the scan resumes after it |
| TextUtils.NoThinkOnlyStrips | src/ollama_text_utils.py:11 | text without `<think>` is only stripped |
| TextUtils.UnclosedThinkKept | src/ollama_text_utils.py:11 | a `<think>` with no later `</think>` stays, with everything after it |
| TextUtils.PromptGroupEnd | src/ollama_text_utils.py:34 | `<prompt>(.*?)</prompt>` matches at p exactly when a `<prompt>` there is followed by a `</prompt>`; the group ends at the nearest one |
| TextUtils.SearchPrompt | src/ollama_text_utils.py:34 | `re.search` gives the group of a match, and gives nothing only when no position matches |
| TextUtils.ExtractPromptTags | src/ollama_text_utils.py:29-35 | a result is stripped and is the strip of a substring of the input |
| TextUtils.ExtractPromptNoneIff | src/ollama_text_utils.py:29-35 | None exactly when no `<prompt>` is followed later by a `</prompt>`, both directions |
| TextUtils.ExtractPromptLeftmost | src/ollama_text_utils.py:29-35 | the result equals the reference reading: leftmost `<prompt>`, nearest `</prompt>` after it, stripped |
| TextUtils.SelectProvider | src/ollama_text_utils.py:169-174 | "ollama" and "gemini" select their call; every other name selects none |
| TextUtils.Truthy | src/ollama_text_utils.py:52 | `if system:` (also at line 90) for a string or None: true exactly for a non-empty string; `GenerateOllama` and `GenerateGemini` prove the system text is used exactly then |
| TextUtils.SystemOrEmpty | src/ollama_text_utils.py:60-67 | `system or ""` (also at lines 107 and 115); `ProviderExchange` proves it is the exchange's system prompt |
| TextUtils.ResponseText | src/ollama_text_utils.py:56-69 | a delivered reply's text, or `"Error: " + message` when the call raised (the Gemini branch at lines 99-117 alike); `ProviderExchange` proves it is the exchange's response |
| TextUtils.ProviderExchange | src/ollama_text_utils.py:164-174 | unknown provider ⇔ ValueError("Unsupported text provider: …"); otherwise system_prompt is `system or ""`, user_prompt the prompt, and the response is what the chosen backend answers to the request built from the configuration: its body when delivered, "Error: " + message when the call failed |
| TextUtils.OllamaRequestFor | src/ollama_text_utils.py:46-56 | the Ollama request: the configured URL, and a payload with the configured model, the prompt, `stream` false, temperature 0.7 and `system` only when it is truthy; `GenerateOllama` proves that exactly this request is sent |
| TextUtils.GeminiRequestFor | src/ollama_text_utils.py:86-103 | the Gemini call: the configured key and model; with a truthy system, temperature 0.7 and the message `system + "\n\nUser: " + prompt`, otherwise no generation config and the bare prompt; `GenerateGemini` proves that exactly this call is made |
| TextUtils.Gateway.GenerateOllama | src/ollama_text_utils.py:37-74 | the exchange has the fixed shape for success and failure; exactly one request is sent; `system` is in the payload iff truthy; exactly one unload of the configured model and one pause in either case |
| TextUtils.Gateway.GenerateGemini | src/ollama_text_utils.py:76-120 | the fixed exchange shape; with a truthy system the message is `system + "\n\nUser: " + prompt`, otherwise the prompt; one pause; no Ollama effects |
| TextUtils.Gateway.GenerateWithProvider | src/ollama_text_utils.py:164-174 | returns `ProviderExchange`; "ollama" has only Ollama effects, "gemini" only Gemini effects, and any other name raises with no effect at all |
| TextUtils.Gateway.UnderstandGoal | src/ollama_text_utils.py:122-136 | the goal-analysis prompt with the art-director system text goes through the configured provider: the exchange is `ProviderExchange`'s, and exactly that provider's request, unload and pause are recorded (nothing for an unknown provider) |
| TextUtils.Gateway.CreateInitialPrompt | src/ollama_text_utils.py:138-162 | the first-prompt prompt with the prompt-engineer system text goes through the configured provider, with exactly that provider's request, unload and pause recorded |
| TextUtils.Gateway.RefinePrompt | src/ollama_text_utils.py:176-205 | the refinement prompt with the prompt-optimizer system text goes through the configured provider, with exactly that provider's request, unload and pause recorded |
| TextUtils.BuildersAreFixedTemplates | src/ollama_text_utils.py:132-201 | the partner of the three builders: taking the fixed frame ("Goal: " in front, the closing text behind) off each built prompt gives back the goal and the caller's texts in template order, so no argument is dropped or reordered |
| TextUtils.GoalAnalysisRequest | src/ollama_text_utils.py:132 | the `understand_goal` user prompt; `BuildersAreFixedTemplates` proves that taking its frame off gives the goal back |
| TextUtils.InitialPromptRequest | src/ollama_text_utils.py:151-157 | the `create_initial_prompt` user prompt; `BuildersAreFixedTemplates` proves that taking its frame off gives the goal and the analysis back, in order |
| TextUtils.RefineRequest | src/ollama_text_utils.py:190-201 | the `refine_prompt` user prompt; `BuildersAreFixedTemplates` proves that taking its frame off gives the goal, previous prompt, description and alignment back, in order |
| Strings.Strip | src/ollama_text_utils.py:35 | `str.strip()`: a slice of the input with only whitespace cut from either end, and no whitespace left at either end |
| Strings.IsSpace | src/ollama_text_utils.py:35 | the characters Python's `str.isspace` accepts, which `strip()` removes; `Strip` and `StripTrimmed` state the stripping |
| Strings.StripTrimmed | src/ollama_text_utils.py:35 | stripping is idempotent |
| Strings.IndexOf | src/ollama_text_utils.py:34 | the first occurrence at or after `from`, and no earlier one |
| Strings.FindChar | src/utils.py:20 | the first position at or after `from` holding the character, and none of it before; `EnvVars.PlaceholderAt` uses it for the `}` that ends a placeholder |
| Strings.Split | src/orchestrator.py:27 | `split('\n')` gives at least one part and no part holds the separator |
| Strings.JoinSplit | src/orchestrator.py:27-28 | joining the parts of a split gives the string back |
| Strings.Join | src/orchestrator.py:28 | `'\n'.join(parts)`; `JoinSplit`, `SplitJoin` and `JoinLast` state it |
| Strings.SplitJoin | src/orchestrator.py:27-28 | splitting a join of separator-free parts gives the parts back |
| Strings.JoinLast | src/orchestrator.py:28 | a join is the join of all parts but the last, the separator, then the last |
| Strings.NatToString | src/generate_image.py:12 | `str(n)` is decimal digits with no leading zero |
| Strings.IntToString | src/generate_image.py:12 | `str(i)` (also at line 27) for any integer: digits, with a `-` in front of a negative; `IntToStringInjective` proves different integers print differently |
| Strings.NatToStringRoundTrip | src/generate_image.py:12 | reading back `str(n)` gives n |
| Strings.IntToStringInjective | src/generate_image.py:12 | different integers print differently |
| Strings.JoinPath | src/orchestrator.py:83 | `os.path.join` ends with the name and, for a relative name, starts with the directory |
| Strings.JoinPathInjective | src/orchestrator.py:83 | for relative names, joining onto one directory is injective |
| Json.Get | src/generate_image.py:11-12 | `d.get(k)` is None exactly when k is not a key, and otherwise a stored member |
| Json.Put | src/generate_image.py:11-12 | `d[k] = v` stores v under k, changes no other key's value, and keeps the key order (a new key goes last) |
| Json.Subscript | src/generate_image.py:11-12 | `j[k]` succeeds exactly on a dict holding k; a missing key raises KeyError |
| EnvVars.PlaceholderAt | src/utils.py:20 | `\${([^}]+)}` matches at p exactly when `$`, `{` and a non-`}` character start there and a `}` follows later, both directions; a match ends at the first `}` |
| EnvVars.Names | src/utils.py:20-21 | every name `findall` returns is non-empty and holds no `}` |
| EnvVars.Placeholder | src/utils.py:28 | `f"${{{var_name}}}"`, the text each round replaces; `SinglePass.ReplaceResolves` proves a round replaces exactly its own name's placeholders |
| EnvVars.ReplaceAll | src/utils.py:28 | `str.replace` with a non-empty pattern, scanning left to right and never rescanning inserted text; `ReplaceNowhere` and `ReplaceAtFirst` state its behaviour in terms of `find` |
| EnvVars.ReplaceNowhere | src/utils.py:28 | `str.replace` leaves a string where `find` finds no occurrence unchanged |
| EnvVars.ReplaceAtFirst | src/utils.py:28 | `str.replace` keeps the text before the first occurrence `find` reports, puts the replacement in its place and goes on after it, never rescanning the replacement |
| EnvVars.SubstituteNames | src/utils.py:23-29 | the loop raises exactly when some matched name is unset, with the ValueError of the first unset name in `findall` order (every earlier name is set) |
| EnvVars.MissingError | src/utils.py:27 | the ValueError text for a missing variable; `SubstituteNames` and `Substitute` prove it names the first unset variable |
| EnvVars.Substitute | src/utils.py:18-30 | no match returns the string unchanged; raises exactly when a referenced name is unset, with the ValueError of the first unset one |
| EnvVars.SubstituteString | src/utils.py:18-30 | the source's loop computes `Substitute` and raises exactly when a referenced name is unset |
| EnvVars.ReplaceEnvVars | src/utils.py:12-31 | the result has the input's shape; raises exactly when some string names an unset variable; a string becomes `Substitute` of it and raises its ValueError; other values come back unchanged |
| EnvVars.ReplaceItems | src/utils.py:16-17 | a list gives a list of the same length, transformed element by element |
| EnvVars.ReplaceMembers | src/utils.py:14-15 | a dict gives a dict with the same keys in the same order, each value transformed |
| SinglePass.VarNames | src/utils.py:21 | the names listed are exactly the names of the placeholder pieces |
| SinglePass.NamesOfRender | src/utils.py:20-21 | on a string whose only `$` signs open placeholders, `findall` finds exactly its placeholders, in order |
| SinglePass.ReplaceSkipLiteral | src/utils.py:28 | `replace` of a `$`-pattern passes text without `$` unchanged |
| SinglePass.ReplaceMiss | src/utils.py:28 | `replace` passes a placeholder of another name unchanged |
| SinglePass.ReplaceResolves | src/utils.py:28 | one round of the loop resolves exactly the placeholders of its name |
| SinglePass.LoopResolves | src/utils.py:24-28 | after the loop over the names, all their placeholders are resolved |
| SinglePass.SubstituteIsSinglePass | src/utils.py:23-29 | under the hypotheses below, the loop replaces every placeholder of the original string once by its value |
| SinglePass.DollarValueRescanned | src/utils.py:23-29 | with A = "$", `${A}{B}${B}` becomes `v + v`, not the single-pass `${B}` + v |
| GenerateImage.SetInput | src/generate_image.py:11-12 | `j[node]["inputs"][field] = v` succeeds exactly when that dict of inputs exists; it sets the field and changes no other field, node or key; a non-dict root raises TypeError and a missing node raises KeyError(node); `SetInputErrors` gives the errors below the root |
| GenerateImage.SetInputNode | src/generate_image.py:11-12 | the assignment also keeps the node's other members (`class_type`, `_meta`), the node's key order and the order of its inputs, a new field going last |
| GenerateImage.SetInputErrors | src/generate_image.py:11-12 | below the root, a node that is not a dict, or whose `inputs` is not a dict, raises TypeError, and a node without `inputs` raises KeyError("inputs") |
| GenerateImage.Patched | src/generate_image.py:11-12 | the two assignments on the loaded template, in order, the first exception ending the patch; `PatchedSetsBoth`, `PatchedKeepsText` and `PatchedKeepsSave` state the result |
| GenerateImage.FilePrefix | src/generate_image.py:12 | `f"iteration_{iteration}"`; `PatchedSetsBoth` proves it is node 9's new prefix |
| GenerateImage.PatchedSetsBoth | src/generate_image.py:11-12 | the patch succeeds exactly when nodes 6 and 9 have inputs; node 6 text is the prompt, node 9 prefix is `iteration_<n>`; in both nodes every other member and input and every key order is kept, and every other node is unchanged |
| GenerateImage.PatchedKeepsText | src/generate_image.py:11-12 | the second assignment leaves node 6 exactly as the first one made it: the template's node with only its text set |
| GenerateImage.PatchedKeepsSave | src/generate_image.py:11-12 | the first assignment leaves node 9 exactly as the template had it, so the final node 9 is the template's with only its prefix set |
| GenerateImage.ImagePathInjective | src/generate_image.py:25-28 | the path lies in the output directory, ends in `.png`, and differs between iterations |
| GenerateImage.ImageNameInjective | src/generate_image.py:25-28 | equal image paths come from the same iteration |
| GenerateImage.ImagePath | src/generate_image.py:25-28 | `os.path.join(output_dir, f"iteration_{iteration}.png")`; `ImagePathInjective` and `ImageNameInjective` prove it lies in the output directory and differs between iterations |
| GenerateImage.Workflow.SetField | src/generate_image.py:11 | the assignment either raises and leaves the workflow alone, or sets that one field |
| GenerateImage.Workflow.Patch | src/generate_image.py:11-12 | both assignments in order; when node 9 fails, node 6 has already been written |
| GenerateImage.ComfyServer.Post | src/generate_image.py:23 | the request is recorded as sent and answered by the server |
| GenerateImage.QueueRequest | src/generate_image.py:15-20 | the POST to `<api_url>/prompt` with content type `application/json` and the body `{"prompt": workflow}`; `SentRequests` and `Generate` state when it is sent |
| GenerateImage.SentRequests | src/generate_image.py:15-23 | one request is queued exactly when the patch succeeds |
| GenerateImage.GenerateSpec | src/generate_image.py:5-28 | a path is returned exactly when the patch succeeds and the answer parses; it is the iteration's `.png`, whatever the answer holds; a patch failure raises before anything is sent |
| GenerateImage.Generate | src/generate_image.py:5-28 | the method returns `GenerateSpec` and queues exactly `SentRequests`, a `{"prompt": workflow}` POST carrying the patched template |
| Orchestrator.LastLine | src/orchestrator.py:27-29 | the last line of a text holds no newline, and the lines before it joined with "\n" rebuild the text |
| Orchestrator.SplitGoal | src/orchestrator.py:27-29 | the response is stripped and split on newlines; the prompt is the last line and holds no newline; `SplitGoalRecombines` states how the two halves rebuild the stripped response |
| Orchestrator.SplitGoalRecombines | src/orchestrator.py:27-29 | the initial prompt is the last line; `analysis + "\n" + prompt` is the stripped response when it has two lines or more; a one-line response has an empty analysis |
| Orchestrator.GoalSpec | src/orchestrator.py:9-31 | an unsupported provider raises ValueError; otherwise, with t the stripped response of the exchange, the prompt is t's last line and `analysis + "\n" + prompt` is t, or the analysis is empty and the prompt is t when t has one line |
| Orchestrator.RoundCount | src/orchestrator.py:51-54 | the number of rounds of `while iteration < max_iters` from 0: `max_iterations`, or none when it is not positive; `Loop` proves the loop runs exactly these rounds |
| Orchestrator.UnderstandGoal | src/orchestrator.py:9-31 | returns `GoalSpec`; exactly one exchange with the configured provider is recorded, and an unsupported provider raises before any text call |
| Orchestrator.Iterations | src/orchestrator.py:51-88 | at most `count` logs; the run ends normally exactly when all `count` were written, and an image was generated whenever a log was |
| Orchestrator.IterationsLogs | src/orchestrator.py:51-88 | log i is iteration first + i, saved as `iteration_<n>.json`, with its image, the analysis the vision model returned for it and the refined prompt; iteration 1 starts from the initial prompt, and each later one from the previous `prompt_after` |
| Orchestrator.IterationsExtend | src/orchestrator.py:51-54 | a larger iteration limit only appends rounds; a run cut short by an exception is the same whatever the limit |
| Orchestrator.LogFileNameInjective | src/orchestrator.py:83 | log names differ between iterations and from `goal_analysis.json` |
| Orchestrator.LogFileName | src/orchestrator.py:83 | `f"iteration_{iteration}.json"`; `LogFileNameInjective` proves log names differ between iterations and from `goal_analysis.json` |
| Orchestrator.RunPathsDistinct | src/orchestrator.py:42-85 | no file of a run overwrites another |
| Orchestrator.ComfyLogImage | src/orchestrator.py:59-78 | with `generate_image`, the log of iteration n names `iteration_<n>.png` in the output directory |
| Orchestrator.ComfyImagesDistinct | src/orchestrator.py:59-78 | with `generate_image`, log i names the image of iteration i + 1, and no two logs name the same image |
| Orchestrator.LogImages | src/orchestrator.py:59-78 | the same, for any chain of logs numbered from 1 |
| Orchestrator.RunDirectory.Save | src/orchestrator.py:83-85 | a save appends exactly one file at `os.path.join(dir, name)` |
| Orchestrator.Iteration | src/orchestrator.py:56-88 | a failed generation changes neither files nor `analysis_prompt`; otherwise `analysis_prompt` is set from the goal; a failed analysis then ends the round with no log; otherwise the prompt is refined and exactly the round's log is appended |
| Orchestrator.Loop | src/orchestrator.py:51-88 | the loop writes exactly the logs and queues exactly the requests `Iterations` gives for `max(0, max_iterations)` rounds from the initial prompt; the first failed generation or analysis ends it; `analysis_prompt` is set exactly when some round generated an image |
| Orchestrator.RunIterations | src/orchestrator.py:33-90 | an unsupported provider raises with nothing written and the gateway untouched; otherwise one goal exchange is recorded, `goal_analysis.json` is saved first, then the logs of `Iterations` |

Supporting lemmas are proof steps of the members above and state nothing
about the source on their own:
- `Strings`: NatToStringInjective, SignsAgree, FramedInjective,
  AppendAssociates.
- `TextUtils`: ScrubPastKept, ScrubKeeps, ScrubSkips, SliceCons, SearchSkips,
  LeftmostSearch, NoOpenNoMatch, UnclosedNoMatch, NoMatchFrom, BetweenFramed,
  InitialPromptFramed, RefineFramed.
- `EnvVars`: ReplaceFront, ReplaceKeepsFirst, NoneBeforeTail,
  ReplaceAllCopies.
- `SinglePass`: RenderCons, NamesSkipLiteral, NamesPlaceholder,
  ReplaceSkipChar, PlaceholderNotPrefix, ReplaceShort, ReplaceMissFront,
  ResolvedIsExpand, ResolveNothing, RescanExpand, RescanSpelling,
  RescanRounds, RescanFirstRound.
- `GenerateImage`: NodeAssignedCongruent.
- `Orchestrator`: IterationsStep, LogsCons, LogsNumbered, LogsContinue,
  ExtendsCons, PrefixOfAppend, ExtendNothing, RemainingStep, RemainingFailed,
  RemainingAnalysisFailed, RemainingDone, ComfyGeneratorDescribes.

Specification predicates and functions name what the contracts above state,
and model no line of the source by themselves:
- `Strings`: AllSpace, Trimmed, SkipSpace, BackSpace, OccursAt, IsDigits,
  DigitChar, DigitsValue.
- `Json`: Keys.
- `TextUtils`: Between, Gateway.Exchanged.
- `EnvVars`: NoneBefore, FirstMissing, SameShape, HasMissing.
- `SinglePass`: RenderPiece, Render, NamesSet, Expand, Plain, AllPlain,
  PlainValues, Resolve.
- `GenerateImage`: InputOf, HasInputs, NodeAssigned.
- `Orchestrator`: ComfyGenerator, IsLogOf, StartsFrom, Continues, LogChain,
  Extends, ImageOf, Ended, GeneratesAt, DescribesComfy, Remaining.

Hypotheses of `SinglePass.SubstituteIsSinglePass`:
- the only `$` signs of the string open its placeholders;
- names hold neither `$` nor `}`;
- every referenced name is set;
- no value holds a `$`.

## Left out

- SinglePass.SubstituteIsSinglePass: proved under stronger hypotheses than "no value contains `${`". With the weaker hypothesis the statement is false: `SinglePass.DollarValueRescanned` proves that the value `$`, followed by the literal text `{B}`, forms a new `${B}` that the next round replaces.
- TextUtils.Gateway.GenerateOllama: `r.raise_for_status()`, `r.json()` and `.get("response", "")` are folded into the transport oracle. A `Delivered` body is the response text; any exception is a `Failed` message.
- TextUtils.Gateway.GenerateOllama: `unload_model`'s own POST, status check and messages are left out (it never raises). Only the unload of the configured model is recorded.
- TextUtils.Gateway.GenerateGemini: `genai.configure` and the model object are not modelled. The request records the key, model, optional temperature and message.
- The `time.sleep(2)` pauses are counted, not timed.
- Every `print` is left out.
- Temperature is the real constant 0.7, with no floating-point semantics.
- `system` is `Option<string>`. Falsy values other than None and "" are not modelled.
- Missing keys in `config` are not modelled: the configuration is a record whose fields are always present, so those KeyErrors cannot happen. For the same reason the order in which `generate_image` reads `config["comfyui"]` against the patch is not modelled.
- `str.format` of the configured `goal_understanding` and `analysis` templates are oracles (`formatGoal`, `formatAnalysis`).
- `analyze_image` is an oracle from (image path, analysis prompt) to text or an exception, because `src/evaluation.py` is not part of this model. Its exception (an image file that cannot be opened raises outside its `try`) ends the run after `analysis_prompt` was set and before the round's log; its swallowed request failure is an empty text inside the oracle. Refinement is an oracle from (prompt, analysis) to the next prompt (see the defect at `src/orchestrator.py:69`).
- Orchestrator.RunIterations: only the goal exchange of `understand_goal` is recorded on the gateway. The vision and refinement calls are oracles, so their traffic is not.
- GenerateImage.SetInput: the node-level frame (other members, key order) is proved for every input by `GenerateImage.SetInputNode` rather than stated in the function's own postcondition, which keeps the proofs of its callers small.
- JSON file writing is not modelled: no timestamps, indentation, encoding, or failures of `open`. Records are datatype values in a sequence of saved files.
- Reading and parsing `comfyui_prompt_template.json` is not modelled. The template is a parameter, assumed unchanged during a run.
- `json.dumps` of the request is not modelled: the request carries the workflow as a JSON value.
- `urllib` and the reply body are an oracle that answers with parsed JSON, a non-JSON body (ValueError) or a raised transport error. The parsed content is ignored, as in the source.
- GenerateImage.Workflow: the nested dicts are values. Aliasing between the loaded dicts is not modelled; only the workflow's root is updated in place.
- Orchestrator.RunConfig: only `analysis_prompt` is mutable. The rest of `config` is constant during a run.
- `max_iterations` is an integer. Non-integer YAML values are not modelled.
- `os.getenv` is a map lookup.
- Only the two tag patterns and the placeholder pattern are modelled, as scanners, not general regular expressions.
- `load_env_vars` is not modelled: reading `.env` is I/O.
- `app.py`, `main.py`, `src/ollama_utils.py` and `src/evaluation.py` are not part of this model. They are HTTP, CLI and I/O wrappers.
