/** `generate_image` (src/generate_image.py): patch the ComfyUI workflow
    template with the prompt text and the iteration's file prefix, queue it
    on the ComfyUI server, and name the image file of the iteration.

    Reading the template file, the JSON encoding of the request and the HTTP
    exchange are not modelled: the template is a parameter, the request
    carries the workflow as a JSON value, and the server's answer comes from
    an oracle. */
module GenerateImage {
  import opened Wrappers
  import opened Strings
  import opened Json

  /** The `comfyui` section of the configuration. */
  datatype ComfyConfig = ComfyConfig(apiUrl: string, outputDir: string)

  /** A POST to ComfyUI's queue endpoint. */
  datatype PromptRequest = PromptRequest(url: string, contentType: string, body: Json)

  /** What the queue call amounts to: a body that parses as JSON, a body that
      does not (`json.loads` raises a ValueError), or a call that raised. */
  datatype ComfyReply = Parsed(data: Json) | NotJson(message: string) | Unreachable(message: string)

  /** The node holding the positive prompt text, and the save-image node. */
  const TextNode := "6"
  const SaveNode := "9"

  /** `j[node]["inputs"][field]`, when every step finds a dict holding the key. */
  function InputOf(j: Json, node: string, field: string): Option<Json> {
    match Subscript(j, node)
    case Err(_) => None
    case Ok(n) =>
      match Subscript(n, "inputs")
      case Err(_) => None
      case Ok(inputs) =>
        match Subscript(inputs, field)
        case Err(_) => None
        case Ok(v) => Some(v)
  }

  /** `j[node]["inputs"]` exists and is a dict, so a field can be assigned. */
  predicate HasInputs(j: Json, node: string) {
    && Subscript(j, node).Ok?
    && Subscript(Subscript(j, node).value, "inputs").Ok?
    && Subscript(Subscript(j, node).value, "inputs").value.JObject?
  }

  /** In `r`, node `node` is the node of `j` with only the input `field`
      assigned `v`: the node keeps its other members (`class_type`, `_meta`,
      ...) and their order, and its inputs keep their other values and their
      order, a new field going last. */
  ghost predicate NodeAssigned(j: Json, r: Json, node: string, field: string, v: Json) {
    && HasInputs(j, node) && HasInputs(r, node)
    && var n, n' := Subscript(j, node).value, Subscript(r, node).value;
       var ins, ins' := Subscript(n, "inputs").value, Subscript(n', "inputs").value;
       && Keys(n'.members) == Keys(n.members)
       && (forall k :: k != "inputs" ==> Subscript(n', k) == Subscript(n, k))
       && Subscript(ins', field) == Ok(v)
       && (forall f :: f != field ==> Subscript(ins', f) == Subscript(ins, f))
       && Keys(ins'.members) == if field in Keys(ins.members) then Keys(ins.members)
                                else Keys(ins.members) + [field]
  }

  /** `j[node]["inputs"][field] = v` on a value: the field gets `v`; every
      other field, the node's other members, every other node and the order
      of all keys stay as they were.
      A missing node or `inputs` raises KeyError, a non-dict on the way
      raises TypeError. */
  function SetInput(j: Json, node: string, field: string, v: Json): (r: Result<Json>)
    ensures r.Ok? <==> HasInputs(j, node)
    ensures !j.JObject? ==> r.Err? && r.error.TypeError?
    ensures j.JObject? && node !in Keys(j.members) ==> r == Err(KeyError(node))
    ensures r.Ok? ==> r.value.JObject? && Keys(r.value.members) == Keys(j.members)
    ensures r.Ok? ==> InputOf(r.value, node, field) == Some(v)
    ensures r.Ok? ==> forall f :: f != field ==> InputOf(r.value, node, f) == InputOf(j, node, f)
    ensures r.Ok? ==> forall n :: n != node ==> Subscript(r.value, n) == Subscript(j, n)
  {
    match Subscript(j, node)
    case Err(e) => Err(e)
    case Ok(n) =>
      match Subscript(n, "inputs")
      case Err(e) => Err(e)
      case Ok(inputs) =>
        if !inputs.JObject? then Err(TypeError("item assignment on a non-dict value"))
        else
          var inputs' := JObject(Put(inputs.members, field, v));
          var n' := JObject(Put(n.members, "inputs", inputs'));
          Ok(JObject(Put(j.members, node, n')))
  }

  /** What `SetInput` does to the node it assigns into: only the one input
      changes, and no key of the node or of its inputs moves. */
  lemma SetInputNode(j: Json, node: string, field: string, v: Json)
    ensures SetInput(j, node, field, v).Ok? ==> NodeAssigned(j, SetInput(j, node, field, v).value, node, field, v)
  {
  }

  /** The errors of `SetInput` below the root: a node that is not a dict, or
      whose `inputs` is not a dict, raises TypeError; a node without `inputs`
      raises KeyError("inputs"). */
  lemma SetInputErrors(j: Json, node: string, field: string, v: Json)
    ensures Subscript(j, node).Ok? && !Subscript(j, node).value.JObject?
            ==> SetInput(j, node, field, v).Err? && SetInput(j, node, field, v).error.TypeError?
    ensures Subscript(j, node).Ok? && Subscript(j, node).value.JObject?
            && "inputs" !in Keys(Subscript(j, node).value.members)
            ==> SetInput(j, node, field, v) == Err(KeyError("inputs"))
    ensures Subscript(j, node).Ok? && Subscript(Subscript(j, node).value, "inputs").Ok?
            && !Subscript(Subscript(j, node).value, "inputs").value.JObject?
            ==> SetInput(j, node, field, v).Err? && SetInput(j, node, field, v).error.TypeError?
  {
  }

  /** `f"iteration_{iteration}"`, the save node's file-name prefix. */
  function FilePrefix(iteration: int): string {
    "iteration_" + IntToString(iteration)
  }

  /** The path `generate_image` returns for an iteration. */
  function ImagePath(outputDir: string, iteration: int): string {
    JoinPath(outputDir, FilePrefix(iteration) + ".png")
  }

  /** Lines 11-12 of the source on a value: both assignments, in order. */
  function Patched(template: Json, prompt: string, iteration: int): Result<Json> {
    match SetInput(template, TextNode, "text", JStr(prompt))
    case Err(e) => Err(e)
    case Ok(w) => SetInput(w, SaveNode, "filename_prefix", JStr(FilePrefix(iteration)))
  }

  /** The patched workflow holds the prompt in node 6 and the prefix in node
      9, and nothing else differs from the template: both nodes keep their
      other members and inputs, every other node is untouched and no key
      moves. The patch succeeds exactly when both nodes have a dict of
      inputs. */
  lemma PatchedSetsBoth(template: Json, prompt: string, iteration: int)
    ensures Patched(template, prompt, iteration).Ok? <==> HasInputs(template, TextNode) && HasInputs(template, SaveNode)
    ensures var r := Patched(template, prompt, iteration);
            r.Ok? ==>
              && InputOf(r.value, TextNode, "text") == Some(JStr(prompt))
              && InputOf(r.value, SaveNode, "filename_prefix") == Some(JStr(FilePrefix(iteration)))
              && Keys(r.value.members) == Keys(template.members)
              && NodeAssigned(template, r.value, TextNode, "text", JStr(prompt))
              && NodeAssigned(template, r.value, SaveNode, "filename_prefix", JStr(FilePrefix(iteration)))
              && (forall n :: n != TextNode && n != SaveNode ==> Subscript(r.value, n) == Subscript(template, n))
  {
    var first := SetInput(template, TextNode, "text", JStr(prompt));
    if first.Ok? {
      assert Subscript(first.value, SaveNode) == Subscript(template, SaveNode);
      var second := SetInput(first.value, SaveNode, "filename_prefix", JStr(FilePrefix(iteration)));
      if second.Ok? {
        PatchedKeepsText(template, first.value, second.value, prompt, iteration);
        PatchedKeepsSave(template, first.value, second.value, prompt, iteration);
      }
    }
  }

  /** The second assignment leaves node 6 exactly as the first one made it. */
  lemma PatchedKeepsText(template: Json, first: Json, second: Json, prompt: string, iteration: int)
    requires SetInput(template, TextNode, "text", JStr(prompt)) == Ok(first)
    requires SetInput(first, SaveNode, "filename_prefix", JStr(FilePrefix(iteration))) == Ok(second)
    ensures Subscript(second, TextNode) == Subscript(first, TextNode)
    ensures InputOf(second, TextNode, "text") == Some(JStr(prompt))
    ensures NodeAssigned(template, second, TextNode, "text", JStr(prompt))
  {
    assert Subscript(second, TextNode) == Subscript(first, TextNode);
    SetInputNode(template, TextNode, "text", JStr(prompt));
    NodeAssignedCongruent(template, first, template, second, TextNode, "text", JStr(prompt));
  }

  /** The first assignment leaves node 9 exactly as the template has it. */
  lemma PatchedKeepsSave(template: Json, first: Json, second: Json, prompt: string, iteration: int)
    requires SetInput(template, TextNode, "text", JStr(prompt)) == Ok(first)
    requires SetInput(first, SaveNode, "filename_prefix", JStr(FilePrefix(iteration))) == Ok(second)
    ensures Subscript(first, SaveNode) == Subscript(template, SaveNode)
    ensures NodeAssigned(template, second, SaveNode, "filename_prefix", JStr(FilePrefix(iteration)))
  {
    assert Subscript(first, SaveNode) == Subscript(template, SaveNode);
    SetInputNode(first, SaveNode, "filename_prefix", JStr(FilePrefix(iteration)));
    NodeAssignedCongruent(first, second, template, second, SaveNode, "filename_prefix", JStr(FilePrefix(iteration)));
  }

  /** `NodeAssigned` looks at the one node only. */
  lemma NodeAssignedCongruent(j: Json, r: Json, j': Json, r': Json, node: string, field: string, v: Json)
    requires NodeAssigned(j, r, node, field, v)
    requires Subscript(j', node) == Subscript(j, node) && Subscript(r', node) == Subscript(r, node)
    ensures NodeAssigned(j', r', node, field, v)
  {
  }

  /** Different iterations write to different image paths, and every path
      lies in the output directory and ends in `.png`. */
  lemma ImagePathInjective(outputDir: string, a: int, b: int)
    ensures |outputDir| <= |ImagePath(outputDir, a)| && ImagePath(outputDir, a)[..|outputDir|] == outputDir
    ensures var p := ImagePath(outputDir, a); |p| >= 4 && p[|p| - 4..] == ".png"
    ensures a != b ==> ImagePath(outputDir, a) != ImagePath(outputDir, b)
  {
    if ImagePath(outputDir, a) == ImagePath(outputDir, b) {
      ImageNameInjective(outputDir, a, b);
    }
  }

  /** The file names of equal image paths come from the same iteration. */
  lemma ImageNameInjective(outputDir: string, a: int, b: int)
    requires ImagePath(outputDir, a) == ImagePath(outputDir, b)
    ensures a == b
  {
    var na, nb := FilePrefix(a) + ".png", FilePrefix(b) + ".png";
    assert na[0] == 'i' && nb[0] == 'i';
    JoinPathInjective(outputDir, na, nb);
    FramedInjective("iteration_", IntToString(a), IntToString(b), ".png");
    IntToStringInjective(a, b);
  }

  /** The workflow `generate_image` loads and patches in place. */
  class Workflow {
    var root: Json

    constructor (template: Json)
      ensures root == template
    {
      root := template;
    }

    /** `root[node]["inputs"][field] = v`: raises without touching the
        workflow, or assigns the one field. */
    method SetField(node: string, field: string, v: Json) returns (o: Outcome)
      modifies this
      ensures SetInput(old(root), node, field, v).Err? ==>
                o == Fail(SetInput(old(root), node, field, v).error) && root == old(root)
      ensures SetInput(old(root), node, field, v).Ok? ==>
                o == Pass && root == SetInput(old(root), node, field, v).value
    {
      var r := SetInput(root, node, field, v);
      if r.Err? {
        o := Fail(r.error);
      } else {
        root := r.value;
        o := Pass;
      }
    }

    /** Lines 11-12: the prompt goes into node 6, then the prefix into node
        9. When the second assignment raises, the first one has already been
        made. */
    method Patch(prompt: string, iteration: int) returns (o: Outcome)
      modifies this
      ensures var first := SetInput(old(root), TextNode, "text", JStr(prompt));
              first.Err? ==> o == Fail(first.error) && root == old(root)
      ensures var first := SetInput(old(root), TextNode, "text", JStr(prompt));
              first.Ok? && Patched(old(root), prompt, iteration).Err? ==>
                o == Fail(Patched(old(root), prompt, iteration).error) && root == first.value
      ensures Patched(old(root), prompt, iteration).Ok? ==>
                o == Pass && root == Patched(old(root), prompt, iteration).value
    {
      o := SetField(TextNode, "text", JStr(prompt));
      if o.Pass? {
        o := SetField(SaveNode, "filename_prefix", JStr(FilePrefix(iteration)));
      }
    }
  }

  /** The ComfyUI server as the model sees it: the requests queued on it, and
      its answer to each. */
  class ComfyServer {
    var posted: seq<PromptRequest>
    const reply: PromptRequest -> ComfyReply

    constructor (reply: PromptRequest -> ComfyReply)
      ensures posted == [] && this.reply == reply
    {
      posted := [];
      this.reply := reply;
    }

    /** `request.urlopen(req)`: the request is sent and answered. */
    method Post(req: PromptRequest) returns (answer: ComfyReply)
      modifies this
      ensures answer == reply(req)
      ensures posted == old(posted) + [req]
    {
      answer := reply(req);
      posted := posted + [req];
    }
  }

  /** The queue request for a patched workflow: `{"prompt": workflow}` posted
      to `<api_url>/prompt` as JSON. */
  function QueueRequest(cfg: ComfyConfig, workflow: Json): PromptRequest {
    PromptRequest(cfg.apiUrl + "/prompt", "application/json", JObject([Member("prompt", workflow)]))
  }

  /** The requests one call of `generate_image` sends: one when the patch
      succeeds, none when it raises. */
  function SentRequests(prompt: string, cfg: ComfyConfig, iteration: int, template: Json): (sent: seq<PromptRequest>)
    ensures |sent| <= 1
    ensures |sent| == 1 <==> Patched(template, prompt, iteration).Ok?
  {
    match Patched(template, prompt, iteration)
    case Ok(w) => [QueueRequest(cfg, w)]
    case Err(_) => []
  }

  /** What one call of `generate_image` returns or raises. A path is returned
      only when the patch succeeds and the server answers with JSON, and it is
      always the iteration's `.png` in the output directory. */
  function GenerateSpec(prompt: string, cfg: ComfyConfig, iteration: int, template: Json,
                        reply: PromptRequest -> ComfyReply): (r: Result<string>)
    ensures r.Ok? <==> Patched(template, prompt, iteration).Ok?
                       && reply(QueueRequest(cfg, Patched(template, prompt, iteration).value)).Parsed?
    ensures r.Ok? ==> r.value == ImagePath(cfg.outputDir, iteration)
    ensures Patched(template, prompt, iteration).Err? ==> r == Err(Patched(template, prompt, iteration).error)
  {
    match Patched(template, prompt, iteration)
    case Err(e) => Err(e)
    case Ok(w) =>
      match reply(QueueRequest(cfg, w))
      case Parsed(_) => Ok(ImagePath(cfg.outputDir, iteration))
      case NotJson(m) => Err(ValueError(m))
      case Unreachable(m) => Err(TransportError(m))
  }

  /** `generate_image(prompt_text, config, iteration)` with the template
      already loaded. */
  method Generate(prompt: string, cfg: ComfyConfig, iteration: int, template: Json, server: ComfyServer)
    returns (r: Result<string>)
    modifies server
    ensures r == GenerateSpec(prompt, cfg, iteration, template, server.reply)
    ensures server.posted == old(server.posted) + SentRequests(prompt, cfg, iteration, template)
  {
    var workflow := new Workflow(template);
    var o := workflow.Patch(prompt, iteration);
    if o.Fail? {
      assert Patched(template, prompt, iteration) == Err(o.error);
      return Err(o.error);
    }
    var w := workflow.root;
    assert Patched(template, prompt, iteration) == Ok(w);
    var answer := server.Post(QueueRequest(cfg, w));
    match answer {
      case Parsed(_) => r := Ok(ImagePath(cfg.outputDir, iteration));
      case NotJson(m) => r := Err(ValueError(m));
      case Unreachable(m) => r := Err(TransportError(m));
    }
  }
}
