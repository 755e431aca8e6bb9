/** The driver of a run (src/orchestrator.py): understand the goal, save the
    goal analysis, then for each iteration generate an image, analyse it,
    refine the prompt and save a log of the iteration.

    The formatting of the configured prompt templates, the vision analysis
    and the prompt refinement are oracles (`Collaborators`); the files of
    the run directory are a sequence of saved records; console output and
    timestamps are not modelled. */
module Orchestrator {
  import opened Wrappers
  import opened Strings
  import opened Json
  import opened TextUtils
  import opened GenerateImage

  // ---------------------------------------------------------------------
  // understand_goal
  // ---------------------------------------------------------------------

  /** The analysis and the initial prompt of a goal response: the response
      is stripped and cut into lines; the last line is the prompt and the
      lines before it, joined again, are the analysis. */
  function SplitGoal(response: string): (r: (string, string))
    ensures '\n' !in r.1
  {
    var lines := Split(Strip(response), '\n');
    LastLine(Strip(response));
    (Join(lines[..|lines| - 1], '\n'), lines[|lines| - 1])
  }

  /** The two halves put back together give the stripped response: the
      prompt is its last line, and a one-line response has an empty
      analysis. */
  lemma SplitGoalRecombines(response: string)
    ensures var (analysis, initial) := SplitGoal(response);
            && '\n' !in initial
            && ('\n' in Strip(response) ==> analysis + "\n" + initial == Strip(response))
            && ('\n' !in Strip(response) ==> analysis == "" && initial == Strip(response))
  {
    LastLine(Strip(response));
  }

  /** The last line of a text and the lines before it, joined again. */
  lemma LastLine(t: string)
    ensures var lines := Split(t, '\n');
            var before, last := Join(lines[..|lines| - 1], '\n'), lines[|lines| - 1];
            && '\n' !in last
            && ('\n' in t ==> before + "\n" + last == t)
            && ('\n' !in t ==> before == "" && last == t)
  {
    var lines := Split(t, '\n');
    var before, last := Join(lines[..|lines| - 1], '\n'), lines[|lines| - 1];
    if |lines| >= 2 {
      assert t == before + "\n" + last by {
        JoinSplit(t, '\n');
        JoinLast(lines, '\n');
      }
      assert t[|before|] == '\n';
    } else {
      assert t == last by {
        JoinSplit(t, '\n');
      }
      assert before == "" by {
        assert lines[..0] == [];
      }
    }
  }

  /** The configured prompt templates and the calls this module hands work
      to, as functions of their inputs. */
  datatype Collaborators = Collaborators(
    formatGoal: string -> string,             // the goal_understanding template, filled with the goal
    formatAnalysis: string -> string,         // the analysis template, filled with the goal
    analyzeImage: (string, string) -> Result<string>, // the vision model on (image path, analysis prompt)
    refine: (string, string) -> string)       // the next prompt from (prompt, analysis)

  /** What `understand_goal` returns or raises: an unsupported provider
      raises ValueError; otherwise the response is split into the analysis
      and a one-line initial prompt: the last line of the stripped response
      is the prompt and the lines before it are the analysis. */
  function GoalSpec(goal: string, text: TextConfig, backends: Backends, collab: Collaborators)
    : (r: Result<(string, string)>)
    ensures r.Err? <==> SelectProvider(text.provider).None?
    ensures r.Err? ==> r.error == ValueError("Unsupported text provider: " + text.provider)
    ensures r.Ok? ==> '\n' !in r.value.1
    ensures r.Ok? ==>
              var t := Strip(ProviderExchange(text.provider, collab.formatGoal(goal), text, None, backends).value.response);
              && ('\n' in t ==> r.value.0 + "\n" + r.value.1 == t)
              && ('\n' !in t ==> r.value == ("", t))
  {
    match ProviderExchange(text.provider, collab.formatGoal(goal), text, None, backends)
    case Err(e) => Err(e)
    case Ok(ex) =>
      SplitGoalRecombines(ex.response);
      Ok(SplitGoal(ex.response))
  }

  /** `understand_goal(goal, config)`, reading the text of the response. */
  method UnderstandGoal(goal: string, text: TextConfig, gw: Gateway, backends: Backends, collab: Collaborators)
    returns (r: Result<(string, string)>)
    modifies gw
    ensures r == GoalSpec(goal, text, backends, collab)
    ensures gw.Exchanged(text.provider, collab.formatGoal(goal), text, None)
    ensures r.Err? ==> unchanged(gw)
  {
    var prompt := collab.formatGoal(goal);
    var provider := text.provider;
    var ex: Exchange;
    if provider == "ollama" {
      ex := gw.GenerateOllama(prompt, text, None, backends.ollama);
    } else if provider == "gemini" {
      ex := gw.GenerateGemini(prompt, text, None, backends.gemini);
    } else {
      return Err(ValueError("Unsupported text provider: " + provider));
    }
    r := Ok(SplitGoal(ex.response));
  }

  // ---------------------------------------------------------------------
  // run_iterations
  // ---------------------------------------------------------------------

  /** The content of the JSON files a run writes. */
  datatype Record =
    | GoalAnalysis(goal: string, analysis: string, initialPrompt: string)
    | IterationLog(iteration: nat, promptBefore: string, analysis: string, promptAfter: string, imagePath: string)

  datatype SavedFile = SavedFile(path: string, record: Record)

  const GoalFileName := "goal_analysis.json"

  function LogFileName(iteration: nat): string {
    "iteration_" + NatToString(iteration) + ".json"
  }

  /** One call of `generate_image`: the path it returns or the exception it
      raises, and the requests it queued on ComfyUI. */
  datatype Generation = Generation(result: Result<string>, sent: seq<PromptRequest>)

  /** `generate_image` with the loaded template, the ComfyUI configuration
      and the server's answers fixed. */
  function ComfyGenerator(comfy: ComfyConfig, template: Json, reply: PromptRequest -> ComfyReply)
    : (string, nat) -> Generation
  {
    (prompt: string, iteration: nat) =>
      Generation(GenerateSpec(prompt, comfy, iteration, template, reply),
                 SentRequests(prompt, comfy, iteration, template))
  }

  /** Everything a run's iterations depend on that does not change. */
  datatype Run = Run(goal: string, directory: string, generate: (string, nat) -> Generation,
                     collab: Collaborators)

  /** The effects of a stretch of iterations: the logs written, the requests
      queued on ComfyUI, the exception that ended it, if any, and whether
      some iteration got as far as generating its image (which is when
      `analysis_prompt` is set). */
  datatype Trace = Trace(files: seq<SavedFile>, posted: seq<PromptRequest>, failure: Option<Error>, imaged: bool)

  /** The number of loop rounds for `max_iterations`. */
  function RoundCount(maxIterations: int): nat {
    if maxIterations < 0 then 0 else maxIterations
  }

  /** `count` iterations numbered from `first`, starting from `prompt`: one
      log per completed iteration; the stretch is cut short exactly when an
      image generation or an image analysis raises. `IterationsLogs` states
      what the logs hold. */
  function Iterations(first: nat, count: nat, prompt: string, run: Run): (t: Trace)
    ensures |t.files| <= count
    ensures t.failure.None? <==> |t.files| == count
    ensures t.files != [] ==> t.imaged
    decreases count
  {
    if count == 0 then Trace([], [], None, false)
    else
      var g := run.generate(prompt, first);
      match g.result
      case Err(e) => Trace([], g.sent, Some(e), false)
      case Ok(imagePath) =>
        match run.collab.analyzeImage(imagePath, run.collab.formatAnalysis(run.goal))
        case Err(e) => Trace([], g.sent, Some(e), true)
        case Ok(analysis) =>
          var next := run.collab.refine(prompt, analysis);
          var log := SavedFile(JoinPath(run.directory, LogFileName(first)),
                               IterationLog(first, prompt, analysis, next, imagePath));
          var rest := Iterations(first + 1, count - 1, next, run);
          Trace([log] + rest.files, g.sent + rest.posted, rest.failure, true)
  }

  /** The log of iteration `n`: written to `iteration_<n>.json`, holding the
      image generated for its prompt, the analysis of that image, and the
      refinement of its prompt by that analysis. */
  predicate IsLogOf(f: SavedFile, n: nat, run: Run) {
    && f.record.IterationLog?
    && f.record.iteration == n
    && f.path == JoinPath(run.directory, LogFileName(n))
    && run.generate(f.record.promptBefore, n).result == Ok(f.record.imagePath)
    && run.collab.analyzeImage(f.record.imagePath, run.collab.formatAnalysis(run.goal)) == Ok(f.record.analysis)
    && f.record.promptAfter == run.collab.refine(f.record.promptBefore, f.record.analysis)
  }

  /** The log of an iteration that started from `prompt`. */
  predicate StartsFrom(f: SavedFile, prompt: string) {
    f.record.IterationLog? && f.record.promptBefore == prompt
  }

  /** The log `g` is of the iteration that started from the prompt `f`'s
      iteration produced. */
  predicate Continues(f: SavedFile, g: SavedFile) {
    f.record.IterationLog? && g.record.IterationLog? && g.record.promptBefore == f.record.promptAfter
  }

  /** Logs numbered from `first`, each one its iteration's, the first
      starting from `prompt` and each later one from the prompt the previous
      one produced. */
  predicate LogChain(files: seq<SavedFile>, first: nat, prompt: string, run: Run) {
    && (forall i :: 0 <= i < |files| ==> IsLogOf(files[i], first + i, run))
    && (|files| > 0 ==> StartsFrom(files[0], prompt))
    && (forall i :: 0 < i < |files| ==> Continues(files[i - 1], files[i]))
  }

  /** Every log is its iteration's, numbered in order; the first iteration
      starts from the given prompt and each later one from the prompt the
      previous one produced. */
  lemma {:induction false} IterationsLogs(first: nat, count: nat, prompt: string, run: Run)
    ensures LogChain(Iterations(first, count, prompt, run).files, first, prompt, run)
    decreases count
  {
    if count == 0 {
      return;
    }
    var g := run.generate(prompt, first);
    IterationsStep(first, count, prompt, run);
    if g.result.Ok? {
      var a := run.collab.analyzeImage(g.result.value, run.collab.formatAnalysis(run.goal));
      if a.Ok? {
        var next := run.collab.refine(prompt, a.value);
        var log := SavedFile(JoinPath(run.directory, LogFileName(first)),
                             IterationLog(first, prompt, a.value, next, g.result.value));
        var rest := Iterations(first + 1, count - 1, next, run).files;
        assert IsLogOf(log, first, run) && StartsFrom(log, prompt);
        IterationsLogs(first + 1, count - 1, next, run);
        LogsCons(log, rest, first, prompt, next, run);
        assert Iterations(first, count, prompt, run).files == [log] + rest;
      } else {
        assert Iterations(first, count, prompt, run).files == [];
      }
    } else {
      assert Iterations(first, count, prompt, run).files == [];
    }
  }

  /** A log of iteration `first` in front of a chain of logs that starts from
      the prompt it produced makes a chain one longer. */
  lemma LogsCons(log: SavedFile, rest: seq<SavedFile>, first: nat, prompt: string, next: string, run: Run)
    requires IsLogOf(log, first, run) && StartsFrom(log, prompt) && log.record.promptAfter == next
    requires LogChain(rest, first + 1, next, run)
    ensures LogChain([log] + rest, first, prompt, run)
  {
    LogsNumbered(log, rest, first, run);
    LogsContinue(log, rest);
  }

  /** Numbering survives putting the log of the iteration before in front. */
  lemma LogsNumbered(log: SavedFile, rest: seq<SavedFile>, first: nat, run: Run)
    requires IsLogOf(log, first, run)
    requires forall i :: 0 <= i < |rest| ==> IsLogOf(rest[i], first + 1 + i, run)
    ensures forall i :: 0 <= i < |[log] + rest| ==> IsLogOf(([log] + rest)[i], first + i, run)
  {
    var t := [log] + rest;
    forall i | 0 < i < |t| ensures IsLogOf(t[i], first + i, run) {
      var j := i - 1;
      assert t[i] == rest[j];
      assert IsLogOf(rest[j], first + 1 + j, run);
    }
  }

  /** Chaining survives putting in front a log whose produced prompt the
      chain starts from. */
  lemma LogsContinue(log: SavedFile, rest: seq<SavedFile>)
    requires log.record.IterationLog?
    requires |rest| > 0 ==> StartsFrom(rest[0], log.record.promptAfter)
    requires forall i :: 0 < i < |rest| ==> Continues(rest[i - 1], rest[i])
    ensures forall i :: 0 < i < |[log] + rest| ==> Continues(([log] + rest)[i - 1], ([log] + rest)[i])
  {
    var t := [log] + rest;
    forall i | 0 < i < |t| ensures Continues(t[i - 1], t[i]) {
      var j := i - 1;
      assert t[i] == rest[j];
      if j > 0 {
        assert t[i - 1] == rest[j - 1];
      }
    }
  }

  /** The trace `l` continues the trace `s`: the logs and requests of `s`
      come first, unchanged, and if `s` ended in an exception, `l` is `s`. */
  predicate Extends(s: Trace, l: Trace) {
    && |s.files| <= |l.files| && l.files[..|s.files|] == s.files
    && |s.posted| <= |l.posted| && l.posted[..|s.posted|] == s.posted
    && (s.failure.Some? ==> l == s)
  }

  /** A larger iteration limit only adds iterations at the end: the logs and
      requests of the smaller run come first, unchanged, and a run cut short
      by an exception is the same whatever the limit. */
  lemma {:induction false} IterationsExtend(first: nat, small: nat, large: nat, prompt: string, run: Run)
    requires small <= large
    ensures Extends(Iterations(first, small, prompt, run), Iterations(first, large, prompt, run))
    decreases small
  {
    var g := run.generate(prompt, first);
    if small == 0 {
      PrefixOfAppend([], [], Iterations(first, large, prompt, run).files);
      PrefixOfAppend([], [], Iterations(first, large, prompt, run).posted);
    } else {
      if g.result.Ok? && run.collab.analyzeImage(g.result.value, run.collab.formatAnalysis(run.goal)).Ok? {
        var analysis := run.collab.analyzeImage(g.result.value, run.collab.formatAnalysis(run.goal)).value;
        var next := run.collab.refine(prompt, analysis);
        IterationsExtend(first + 1, small - 1, large - 1, next, run);
        ExtendsCons([SavedFile(JoinPath(run.directory, LogFileName(first)),
                               IterationLog(first, prompt, analysis, next, g.result.value))],
                    g.sent, Iterations(first + 1, small - 1, next, run), Iterations(first + 1, large - 1, next, run));
      }
      IterationsStep(first, small, prompt, run);
      IterationsStep(first, large, prompt, run);
    }
  }

  /** Continuing is kept by putting the same logs and requests in front. */
  lemma ExtendsCons(files: seq<SavedFile>, posted: seq<PromptRequest>, s: Trace, l: Trace)
    requires Extends(s, l)
    ensures Extends(Trace(files + s.files, posted + s.posted, s.failure, true),
                    Trace(files + l.files, posted + l.posted, l.failure, true))
  {
    PrefixOfAppend(files, s.files, l.files);
    PrefixOfAppend(posted, s.posted, l.posted);
  }

  /** A prefix stays a prefix behind a common head. */
  lemma PrefixOfAppend<T>(a: seq<T>, b: seq<T>, c: seq<T>)
    requires |b| <= |c| && c[..|b|] == b
    ensures |a + b| <= |a + c| && (a + c)[..|a + b|] == a + b
  {
    assert (a + c)[..|a + b|] == a + c[..|b|];
  }

  /** Log file names differ between iterations and from the goal file. */
  lemma LogFileNameInjective(a: nat, b: nat)
    ensures LogFileName(a)[0] == 'i' && GoalFileName[0] == 'g'
    ensures a != b ==> LogFileName(a) != LogFileName(b)
  {
    if LogFileName(a) == LogFileName(b) {
      var na, nb := LogFileName(a), LogFileName(b);
      assert NatToString(a) == na[10..|na| - 5] == nb[10..|nb| - 5] == NatToString(b);
      NatToStringRoundTrip(a);
      NatToStringRoundTrip(b);
    }
  }

  /** No file of a run overwrites another: the goal analysis and the logs
      all have different paths. */
  lemma RunPathsDistinct(count: nat, analysis: string, prompt: string, run: Run)
    ensures var t := Iterations(1, count, prompt, run);
            var files := [SavedFile(JoinPath(run.directory, GoalFileName), GoalAnalysis(run.goal, analysis, prompt))]
                         + t.files;
            forall i, j :: 0 <= i < j < |files| ==> files[i].path != files[j].path
  {
    var t := Iterations(1, count, prompt, run);
    var goalFile := SavedFile(JoinPath(run.directory, GoalFileName), GoalAnalysis(run.goal, analysis, prompt));
    var files := [goalFile] + t.files;
    IterationsLogs(1, count, prompt, run);
    forall i, j | 0 <= i < j < |files| ensures files[i].path != files[j].path {
      assert files[j] == t.files[j - 1];
      LogFileNameInjective(j, j);
      if i == 0 {
        if files[i].path == files[j].path {
          JoinPathInjective(run.directory, GoalFileName, LogFileName(j));
        }
      } else {
        assert files[i] == t.files[i - 1];
        LogFileNameInjective(i, j);
        if files[i].path == files[j].path {
          JoinPathInjective(run.directory, LogFileName(i), LogFileName(j));
        }
      }
    }
  }

  /** The image a log names (none for the goal analysis). */
  function ImageOf(f: SavedFile): string {
    if f.record.IterationLog? then f.record.imagePath else ""
  }

  /** With `generate_image` as the generator, the log of iteration `n`
      names the image `iteration_<n>.png` of the output directory. */
  lemma ComfyLogImage(f: SavedFile, n: nat, run: Run, comfy: ComfyConfig, template: Json,
                      reply: PromptRequest -> ComfyReply)
    requires DescribesComfy(run.generate, comfy, template, reply)
    requires IsLogOf(f, n, run)
    ensures ImageOf(f) == ImagePath(comfy.outputDir, n)
  {
    assert GeneratesAt(run.generate, comfy, template, reply, f.record.promptBefore, n);
  }

  /** With `generate_image` as the generator, iteration `n` logs the image
      `iteration_<n>.png` of the output directory, so no two iterations
      share an image. */
  lemma ComfyImagesDistinct(count: nat, prompt: string, run: Run, comfy: ComfyConfig, template: Json,
                            reply: PromptRequest -> ComfyReply)
    requires DescribesComfy(run.generate, comfy, template, reply)
    ensures var t := Iterations(1, count, prompt, run);
            && (forall i :: 0 <= i < |t.files| ==> ImageOf(t.files[i]) == ImagePath(comfy.outputDir, 1 + i))
            && (forall i, j :: 0 <= i < j < |t.files| ==> ImageOf(t.files[i]) != ImageOf(t.files[j]))
  {
    IterationsLogs(1, count, prompt, run);
    LogImages(Iterations(1, count, prompt, run).files, run, comfy, template, reply);
  }

  /** Logs of the iterations numbered from 1, made with `generate_image`,
      name the images of their iterations, all different. */
  lemma LogImages(files: seq<SavedFile>, run: Run, comfy: ComfyConfig, template: Json,
                  reply: PromptRequest -> ComfyReply)
    requires DescribesComfy(run.generate, comfy, template, reply)
    requires forall i :: 0 <= i < |files| ==> IsLogOf(files[i], 1 + i, run)
    ensures forall i :: 0 <= i < |files| ==> ImageOf(files[i]) == ImagePath(comfy.outputDir, 1 + i)
    ensures forall i, j :: 0 <= i < j < |files| ==> ImageOf(files[i]) != ImageOf(files[j])
  {
    forall i | 0 <= i < |files| ensures ImageOf(files[i]) == ImagePath(comfy.outputDir, 1 + i) {
      ComfyLogImage(files[i], 1 + i, run, comfy, template, reply);
    }
    forall i, j | 0 <= i < j < |files| ensures ImageOf(files[i]) != ImageOf(files[j]) {
      ImagePathInjective(comfy.outputDir, 1 + i, 1 + j);
    }
  }

  /** The configuration of a run; `analysis_prompt` is the one entry the
      loop writes. */
  class RunConfig {
    const text: TextConfig
    const comfy: ComfyConfig
    const maxIterations: int
    var analysisPrompt: Option<string>

    constructor (text: TextConfig, comfy: ComfyConfig, maxIterations: int)
      ensures this.text == text && this.comfy == comfy && this.maxIterations == maxIterations
      ensures analysisPrompt == None
    {
      this.text := text;
      this.comfy := comfy;
      this.maxIterations := maxIterations;
      analysisPrompt := None;
    }
  }

  /** The run directory and the files written into it, in order. */
  class RunDirectory {
    const path: string
    var files: seq<SavedFile>

    constructor (path: string)
      ensures this.path == path && files == []
    {
      this.path := path;
      files := [];
    }

    /** `json.dump(record, open(os.path.join(path, name), "w"))`. */
    method Save(name: string, record: Record)
      modifies this
      ensures files == old(files) + [SavedFile(JoinPath(path, name), record)]
    {
      files := files + [SavedFile(JoinPath(path, name), record)];
    }
  }

  /** `run_iterations(config, goal, run_directory)`.

      An unsupported provider raises before anything is written. Otherwise
      the goal analysis is saved and the loop runs from the initial prompt. */
  method RunIterations(goal: string, config: RunConfig, dir: RunDirectory, gw: Gateway, backends: Backends,
                       server: ComfyServer, template: Json, collab: Collaborators) returns (o: Outcome)
    modifies config, dir, gw, server
    ensures gw.Exchanged(config.text.provider, collab.formatGoal(goal), config.text, None)
    ensures var g := GoalSpec(goal, config.text, backends, collab);
            g.Err? ==> && o == Fail(g.error)
                       && unchanged(gw)
                       && dir.files == old(dir.files)
                       && server.posted == old(server.posted)
                       && config.analysisPrompt == old(config.analysisPrompt)
    ensures var g := GoalSpec(goal, config.text, backends, collab);
            var run := Run(goal, dir.path, ComfyGenerator(config.comfy, template, server.reply), collab);
            g.Ok? ==>
              var t := Iterations(1, RoundCount(config.maxIterations), g.value.1, run);
              && dir.files == old(dir.files)
                              + [SavedFile(JoinPath(dir.path, GoalFileName), GoalAnalysis(goal, g.value.0, g.value.1))]
                              + t.files
              && server.posted == old(server.posted) + t.posted
              && o == Ended(t)
              && config.analysisPrompt == (if t.imaged then Some(collab.formatAnalysis(goal))
                                           else old(config.analysisPrompt))
  {
    var g := UnderstandGoal(goal, config.text, gw, backends, collab);
    if g.Err? {
      return Fail(g.error);
    }
    var analysis, initialPrompt := g.value.0, g.value.1;
    dir.Save(GoalFileName, GoalAnalysis(goal, analysis, initialPrompt));
    ComfyGeneratorDescribes(config.comfy, template, server.reply);
    o := Loop(goal, initialPrompt, config, dir, server, template, collab,
              ComfyGenerator(config.comfy, template, server.reply));
  }

  lemma ExtendNothing(t: Trace)
    ensures Remaining([], [], t, t)
  {
    AppendAssociates(t.files, [], []);
    AppendAssociates(t.posted, [], []);
  }

  /** How a stretch of iterations ends the run: normally, or with the
      exception that cut it short. */
  function Ended(t: Trace): Outcome {
    if t.failure.None? then Pass else Fail(t.failure.value)
  }

  /** `gen` answers for iteration `n` and prompt `p` as `generate_image` does. */
  predicate GeneratesAt(gen: (string, nat) -> Generation, comfy: ComfyConfig, template: Json,
                        reply: PromptRequest -> ComfyReply, p: string, n: nat) {
    gen(p, n) == Generation(GenerateSpec(p, comfy, n, template, reply), SentRequests(p, comfy, n, template))
  }

  /** `gen` is `generate_image` with the given template, configuration and
      server. */
  ghost predicate DescribesComfy(gen: (string, nat) -> Generation, comfy: ComfyConfig, template: Json,
                           reply: PromptRequest -> ComfyReply) {
    forall p: string, n: nat :: GeneratesAt(gen, comfy, template, reply, p, n)
  }

  lemma ComfyGeneratorDescribes(comfy: ComfyConfig, template: Json, reply: PromptRequest -> ComfyReply)
    ensures DescribesComfy(ComfyGenerator(comfy, template, reply), comfy, template, reply)
  {
  }

  /** One iteration of a stretch: an exception from the generator or from
      the analysis ends it; otherwise the iteration's log comes first and the
      rest of the stretch starts from the refined prompt. */
  lemma IterationsStep(first: nat, count: nat, prompt: string, run: Run)
    requires count > 0
    ensures var g := run.generate(prompt, first);
            g.result.Err? ==> Iterations(first, count, prompt, run) == Trace([], g.sent, Some(g.result.error), false)
    ensures var g := run.generate(prompt, first);
            g.result.Ok? ==>
              var a := run.collab.analyzeImage(g.result.value, run.collab.formatAnalysis(run.goal));
              a.Err? ==> Iterations(first, count, prompt, run) == Trace([], g.sent, Some(a.error), true)
    ensures var g := run.generate(prompt, first);
            g.result.Ok? ==>
              var a := run.collab.analyzeImage(g.result.value, run.collab.formatAnalysis(run.goal));
              a.Ok? ==>
                var next := run.collab.refine(prompt, a.value);
                var rest := Iterations(first + 1, count - 1, next, run);
                Iterations(first, count, prompt, run)
                  == Trace([SavedFile(JoinPath(run.directory, LogFileName(first)),
                                      IterationLog(first, prompt, a.value, next, g.result.value))] + rest.files,
                           g.sent + rest.posted, rest.failure, true)
  {
  }

  /** `rest` is what remains of the stretch `whole` once `doneFiles` have
      been written and `donePosted` queued. */
  predicate Remaining(doneFiles: seq<SavedFile>, donePosted: seq<PromptRequest>, rest: Trace, whole: Trace) {
    && doneFiles + rest.files == whole.files
    && donePosted + rest.posted == whole.posted
    && rest.failure == whole.failure
    && whole.imaged == (doneFiles != [] || rest.imaged)
  }

  /** A completed iteration moves its log and its requests from the rest of
      the stretch to what has been done; the rest starts from the refined
      prompt. */
  lemma RemainingStep(doneFiles: seq<SavedFile>, donePosted: seq<PromptRequest>, first: nat, left: nat, later: nat,
                      prompt: string, run: Run, whole: Trace, image: string, analysis: string, next: string,
                      log: SavedFile,
                      sent: seq<PromptRequest>)
    requires left == later + 1
    requires Remaining(doneFiles, donePosted, Iterations(first, left, prompt, run), whole)
    requires run.generate(prompt, first) == Generation(Ok(image), sent)
    requires run.collab.analyzeImage(image, run.collab.formatAnalysis(run.goal)) == Ok(analysis)
    requires && next == run.collab.refine(prompt, analysis)
             && log == SavedFile(JoinPath(run.directory, LogFileName(first)),
                                 IterationLog(first, prompt, analysis, next, image))
    ensures Remaining(doneFiles + [log], donePosted + sent, Iterations(first + 1, later, next, run), whole)
  {
    var rest := Iterations(first + 1, later, next, run);
    IterationsStep(first, left, prompt, run);
    AppendAssociates(doneFiles, [log], rest.files);
    AppendAssociates(donePosted, sent, rest.posted);
  }

  /** An iteration whose image generation raises ends the stretch: with its
      requests, everything has been done. */
  lemma RemainingFailed(doneFiles: seq<SavedFile>, donePosted: seq<PromptRequest>, first: nat, left: nat,
                        prompt: string, run: Run, whole: Trace)
    requires left > 0 && run.generate(prompt, first).result.Err?
    requires Remaining(doneFiles, donePosted, Iterations(first, left, prompt, run), whole)
    ensures whole == Trace(doneFiles, donePosted + run.generate(prompt, first).sent,
                           Some(run.generate(prompt, first).result.error), doneFiles != [])
  {
    IterationsStep(first, left, prompt, run);
    AppendAssociates(doneFiles, [], []);
  }

  /** An iteration whose image analysis raises ends the stretch after its
      image was generated: with its requests, everything has been done. */
  lemma RemainingAnalysisFailed(doneFiles: seq<SavedFile>, donePosted: seq<PromptRequest>, first: nat, left: nat,
                                prompt: string, run: Run, whole: Trace, image: string, e: Error)
    requires left > 0 && run.generate(prompt, first).result == Ok(image)
    requires run.collab.analyzeImage(image, run.collab.formatAnalysis(run.goal)) == Err(e)
    requires Remaining(doneFiles, donePosted, Iterations(first, left, prompt, run), whole)
    ensures whole == Trace(doneFiles, donePosted + run.generate(prompt, first).sent, Some(e), true)
  {
    IterationsStep(first, left, prompt, run);
    AppendAssociates(doneFiles, [], []);
  }

  /** With no iterations left, everything has been done. */
  lemma RemainingDone(doneFiles: seq<SavedFile>, donePosted: seq<PromptRequest>, first: nat,
                      prompt: string, run: Run, whole: Trace)
    requires Remaining(doneFiles, donePosted, Iterations(first, 0, prompt, run), whole)
    ensures whole == Trace(doneFiles, donePosted, None, doneFiles != [])
  {
    AppendAssociates(doneFiles, [], []);
    AppendAssociates(donePosted, [], []);
  }

  /** One round of the loop of `run_iterations` (lines 56-88), numbered
      `iteration`, from `prompt`: generate the image (an exception leaves the
      directory and `analysis_prompt` as they were), set `analysis_prompt`,
      analyse the image (an exception leaves the directory as it was), refine
      the prompt and save the round's log. */
  method Iteration(goal: string, iteration: nat, prompt: string, config: RunConfig, dir: RunDirectory,
                   server: ComfyServer, template: Json, collab: Collaborators,
                   ghost gen: (string, nat) -> Generation)
    returns (failure: Option<Error>, newPrompt: string)
    requires DescribesComfy(gen, config.comfy, template, server.reply)
    modifies config, dir, server
    ensures server.posted == old(server.posted) + gen(prompt, iteration).sent
    ensures var g := gen(prompt, iteration).result;
            g.Err? ==> && failure == Some(g.error)
                       && dir.files == old(dir.files)
                       && config.analysisPrompt == old(config.analysisPrompt)
    ensures var g := gen(prompt, iteration).result;
            g.Ok? ==> config.analysisPrompt == Some(collab.formatAnalysis(goal))
    ensures var g := gen(prompt, iteration).result;
            g.Ok? ==>
              var a := collab.analyzeImage(g.value, collab.formatAnalysis(goal));
              a.Err? ==> failure == Some(a.error) && dir.files == old(dir.files)
    ensures var g := gen(prompt, iteration).result;
            g.Ok? ==>
              var a := collab.analyzeImage(g.value, collab.formatAnalysis(goal));
              a.Ok? ==>
                && failure == None
                && newPrompt == collab.refine(prompt, a.value)
                && dir.files == old(dir.files) + [SavedFile(JoinPath(dir.path, LogFileName(iteration)),
                                                            IterationLog(iteration, prompt, a.value, newPrompt, g.value))]
  {
    var imagePath := Generate(prompt, config.comfy, iteration, template, server);
    assert GeneratesAt(gen, config.comfy, template, server.reply, prompt, iteration);
    if imagePath.Err? {
      return Some(imagePath.error), prompt;
    }
    config.analysisPrompt := Some(collab.formatAnalysis(goal));
    var imageAnalysis := collab.analyzeImage(imagePath.value, config.analysisPrompt.value);
    if imageAnalysis.Err? {
      return Some(imageAnalysis.error), prompt;
    }
    newPrompt := collab.refine(prompt, imageAnalysis.value);
    dir.Save(LogFileName(iteration), IterationLog(iteration, prompt, imageAnalysis.value, newPrompt, imagePath.value));
    failure := None;
  }

  /** The loop of `run_iterations` (lines 51-88), from the initial prompt,
      with `gen` standing for `generate_image`: its logs are written and its
      requests queued as `Iterations` describes, and the first failed image
      generation or analysis ends it with its exception. `analysis_prompt`
      is set once an image has been generated. */
  method Loop(goal: string, initialPrompt: string, config: RunConfig, dir: RunDirectory, server: ComfyServer,
              template: Json, collab: Collaborators, ghost gen: (string, nat) -> Generation) returns (o: Outcome)
    requires DescribesComfy(gen, config.comfy, template, server.reply)
    modifies config, dir, server
    ensures var t := Iterations(1, RoundCount(config.maxIterations), initialPrompt, Run(goal, dir.path, gen, collab));
            && dir.files == old(dir.files) + t.files
            && server.posted == old(server.posted) + t.posted
            && o == Ended(t)
            && config.analysisPrompt == (if t.imaged then Some(collab.formatAnalysis(goal))
                                         else old(config.analysisPrompt))
  {
    ghost var run := Run(goal, dir.path, gen, collab);
    ghost var count := RoundCount(config.maxIterations);
    ghost var whole := Iterations(1, count, initialPrompt, run);
    ghost var doneFiles: seq<SavedFile>, donePosted: seq<PromptRequest> := [], [];
    ghost var left := count;
    AppendAssociates(old(dir.files), [], []);
    AppendAssociates(old(server.posted), [], []);
    ExtendNothing(whole);

    var currentPrompt := initialPrompt;
    var iteration := 0;
    var maxIters := config.maxIterations;
    while iteration < maxIters
      invariant 0 <= iteration <= count && left == count - iteration
      invariant dir.files == old(dir.files) + doneFiles
      invariant server.posted == old(server.posted) + donePosted
      invariant Remaining(doneFiles, donePosted, Iterations(iteration + 1, left, currentPrompt, run), whole)
      invariant config.analysisPrompt == if doneFiles == [] then old(config.analysisPrompt)
                                         else Some(collab.formatAnalysis(goal))
      decreases maxIters - iteration
    {
      iteration := iteration + 1;
      var failure, newPrompt := Iteration(goal, iteration, currentPrompt, config, dir, server, template, collab, gen);
      ghost var step := run.generate(currentPrompt, iteration);
      AppendAssociates(old(server.posted), donePosted, step.sent);
      if failure.Some? {
        if step.result.Err? {
          RemainingFailed(doneFiles, donePosted, iteration, left, currentPrompt, run, whole);
        } else {
          RemainingAnalysisFailed(doneFiles, donePosted, iteration, left, currentPrompt, run, whole,
                                  step.result.value, failure.value);
        }
        return Fail(failure.value);
      }
      ghost var analysis := collab.analyzeImage(step.result.value, collab.formatAnalysis(goal));
      ghost var log := dir.files[|dir.files| - 1];
      ghost var later := left - 1;
      RemainingStep(doneFiles, donePosted, iteration, left, later, currentPrompt, run, whole, step.result.value,
                    analysis.value, newPrompt, log, step.sent);
      AppendAssociates(old(dir.files), doneFiles, [log]);
      doneFiles, donePosted := doneFiles + [log], donePosted + step.sent;
      left := later;
      currentPrompt := newPrompt;
    }
    RemainingDone(doneFiles, donePosted, iteration + 1, currentPrompt, run, whole);
    return Pass;
  }
}
