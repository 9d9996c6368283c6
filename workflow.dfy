/** `create_wan2_workflow`: the fixed-topology image-to-video graph submitted to the render
    server, and the VAE decode method chosen for it. */
module Workflow {
  import opened Wrappers
  import opened Resolution
  import SafeFilename

  /** An input of a graph node: a literal, or output `slot` of node `node`. */
  datatype Value =
    | Text(s: string)
    | Int(i: int)
    | Num(r: real)
    | Flag(b: bool)
    | Link(node: nat, slot: nat)

  /** A node: its class and its inputs, in the order the source's dict literal lists them. */
  datatype Node = Node(classType: string, inputs: seq<(string, Value)>)

  /** The graph: node ids with their nodes, in the dict literal's insertion order. The source
      keys nodes by the decimal numerals "1" to "12"; the model keys them by those numbers. */
  type Graph = seq<(nat, Node)>

  /** The generation settings `create_wan2_workflow` receives (its keyword arguments). */
  datatype Settings = Settings(
    prompt: string, negativePrompt: string, numFrames: int, seed: int, resolution: string,
    fps: real, cfg: real, vaeDecodeMethod: string, steps: int, samplerName: string,
    scheduler: string, denoise: real, shift: real, crf: int)

  /** The decode method: "auto" picks by frame count, any other request passes through. */
  function VaeMethod(requested: string, numFrames: int): (m: string)
    ensures requested != "auto" ==> m == requested
    ensures requested == "auto" ==> (m == "tiled" <==> numFrames > 80)
    ensures requested == "auto" ==> (m == "tiled_overlap" <==> 60 < numFrames <= 80)
    ensures requested == "auto" ==> (m == "standard" <==> numFrames <= 60)
  {
    if requested == "auto" then
      if numFrames > 80 then "tiled"
      else if numFrames > 60 then "tiled_overlap"
      else "standard"
    else requested
  }

  /** The node ids in the order the source's dict literal inserts them. */
  const NodeOrder: seq<nat> := [1, 2, 3, 12, 4, 5, 6, 7, 8, 9, 10, 11]

  /** `create_vae_decode_node`: whatever method and frame count it is given, it emits the plain
      decoder reading the sampler's latent and the separately loaded VAE. */
  function VaeDecodeNode(decodeMethod: string, numFrames: int): (n: Node)
    ensures LinksWithin(n, [12, 9])
  {
    Node("VAEDecode", [("samples", Link(9, 0)), ("vae", Link(12, 0))])
  }

  function LoadImageNode(imageFileName: string): (n: Node)
    ensures LinksWithin(n, [])
  {
    Node("LoadImage", [("image", Text(imageFileName)), ("upload", Text("image"))])
  }

  function CheckpointLoaderNode(): (n: Node)
    ensures LinksWithin(n, [])
  {
    Node("CheckpointLoaderSimple", [("ckpt_name", Text("wan2.2-i2v-rapid-aio-v10.safetensors"))])
  }

  function ClipVisionLoaderNode(): (n: Node)
    ensures LinksWithin(n, [])
  {
    Node("CLIPVisionLoader", [("clip_name", Text("clip_vision_vit_h.safetensors"))])
  }

  function VaeLoaderNode(): (n: Node)
    ensures LinksWithin(n, [])
  {
    Node("VAELoader", [("vae_name", Text("wan2.2_vae.safetensors"))])
  }

  function ClipVisionEncodeNode(): (n: Node)
    ensures LinksWithin(n, [1, 3])
  {
    Node("CLIPVisionEncode", [("crop", Text("center")), ("image", Link(1, 0)), ("clip_vision", Link(3, 0))])
  }

  /** Nodes 5 and 6: the positive and the negative prompt. */
  function TextEncodeNode(text: string): (n: Node)
    ensures LinksWithin(n, [2])
  {
    Node("CLIPTextEncode", [("text", Text(text)), ("clip", Link(2, 1))])
  }

  function ModelSamplingNode(shift: real): (n: Node)
    ensures LinksWithin(n, [2])
  {
    Node("ModelSamplingSD3", [("shift", Num(shift)), ("model", Link(2, 0))])
  }

  function ImageToVideoNode(size: Size, length: int): (n: Node)
    ensures LinksWithin(n, [1, 12, 4, 5, 6])
  {
    Node("WanImageToVideo", [
      ("positive", Link(5, 0)), ("negative", Link(6, 0)), ("vae", Link(12, 0)),
      ("clip_vision_output", Link(4, 0)), ("start_image", Link(1, 0)),
      ("width", Int(size.width)), ("height", Int(size.height)), ("length", Int(length)),
      ("batch_size", Int(1))])
  }

  function SamplerNode(settings: Settings): (n: Node)
    ensures LinksWithin(n, [7, 8])
  {
    Node("KSampler", [
      ("seed", Int(settings.seed)), ("steps", Int(settings.steps)), ("cfg", Num(settings.cfg)),
      ("sampler_name", Text(settings.samplerName)), ("scheduler", Text(settings.scheduler)),
      ("denoise", Num(settings.denoise)), ("model", Link(7, 0)), ("positive", Link(8, 0)),
      ("negative", Link(8, 1)), ("latent_image", Link(8, 2))])
  }

  function VideoCombineNode(fps: real, prefix: string, crf: int): (n: Node)
    ensures LinksWithin(n, [10])
  {
    Node("VHS_VideoCombine", [
      ("images", Link(10, 0)), ("frame_rate", Num(fps)), ("loop_count", Int(0)),
      ("filename_prefix", Text(prefix)), ("format", Text("video/h264-mp4")),
      ("pix_fmt", Text("yuv420p")), ("crf", Int(crf)), ("save_metadata", Flag(true)),
      ("pingpong", Flag(false)), ("save_output", Flag(true))])
  }

  /** The output-file prefix: the sanitised prompt followed by "_I2V". */
  function FilenamePrefix(prompt: string): (r: string)
    ensures 4 <= |r| <= 54 && r[|r| - 4..] == "_I2V"
    ensures SafeFilename.IsSafe(r[..|r| - 4])
  {
    SafeFilename.SafeFilename(prompt, 50) + "_I2V"
  }

  /** The graph for `settings`; `imageFileName` is the uploaded input's name and `decoded` the
      measured input size the "auto" resolution uses. */
  function BuildWorkflow(settings: Settings, imageFileName: string, decoded: Option<Size>): Graph {
    Assemble(settings, imageFileName, TargetSize(settings.resolution, decoded),
      FilenamePrefix(settings.prompt), VaeMethod(settings.vaeDecodeMethod, settings.numFrames))
  }

  /** The dict literal of `create_wan2_workflow`, once the size, the file prefix and the decode
      method are known. */
  function Assemble(settings: Settings, imageFileName: string, size: Size, prefix: string, decodeMethod: string): Graph {
    [
      (1, LoadImageNode(imageFileName)),
      (2, CheckpointLoaderNode()),
      (3, ClipVisionLoaderNode()),
      (12, VaeLoaderNode()),
      (4, ClipVisionEncodeNode()),
      (5, TextEncodeNode(settings.prompt)),
      (6, TextEncodeNode(settings.negativePrompt)),
      (7, ModelSamplingNode(settings.shift)),
      (8, ImageToVideoNode(size, settings.numFrames)),
      (9, SamplerNode(settings)),
      (10, VaeDecodeNode(decodeMethod, settings.numFrames)),
      (11, VideoCombineNode(settings.fps, prefix, settings.crf))
    ]
  }

  /** The ids of a graph, in order. */
  function Ids(g: Graph): (ids: seq<nat>)
    ensures |ids| == |g| && forall i :: 0 <= i < |g| ==> ids[i] == g[i].0
  {
    seq(|g|, i requires 0 <= i < |g| => g[i].0)
  }

  /** The node stored under `id` (the first entry with that id, as a dict lookup finds it). */
  function Lookup(g: Graph, id: nat): (r: Option<Node>)
    ensures r.Some? <==> id in Ids(g)
    ensures r.Some? ==> (id, r.value) in g
  {
    if g == [] then None
    else if g[0].0 == id then Some(g[0].1)
    else
      assert Ids(g) == [g[0].0] + Ids(g[1..]);
      Lookup(g[1..], id)
  }

  /** The value of input `name` of a node (first entry with that name). */
  function Input(n: Node, name: string): Option<Value> {
    InputIn(n.inputs, name)
  }

  function InputIn(inputs: seq<(string, Value)>, name: string): Option<Value> {
    if inputs == [] then None
    else if inputs[0].0 == name then Some(inputs[0].1)
    else InputIn(inputs[1..], name)
  }

  /** Every link of `n` names one of `allowed`. */
  predicate LinksWithin(n: Node, allowed: seq<nat>) {
    forall k :: 0 <= k < |n.inputs| && n.inputs[k].1.Link? ==> n.inputs[k].1.node in allowed
  }

  /** Every link names a node of the same graph. */
  predicate LinksResolve(g: Graph) {
    forall i :: 0 <= i < |g| ==> LinksWithin(g[i].1, Ids(g))
  }

  /** Every node's links name nodes listed before it: insertion order is a topological order. */
  predicate LinksPointBack(g: Graph) {
    forall i :: 0 <= i < |g| ==> LinksWithin(g[i].1, Ids(g[..i]))
  }

  lemma LinksWithinWider(n: Node, allowed: seq<nat>, wider: seq<nat>)
    requires LinksWithin(n, allowed)
    requires forall x :: x in allowed ==> x in wider
    ensures LinksWithin(n, wider)
  {
  }

  /** The ids node number `i` of the assembled graph may link to. */
  function AllowedLinks(i: int): seq<nat> {
    if i == 4 then [1, 3]
    else if 5 <= i <= 7 then [2]
    else if i == 8 then [1, 12, 4, 5, 6]
    else if i == 9 then [7, 8]
    else if i == 10 then [12, 9]
    else if i == 11 then [10]
    else []
  }

  lemma AssembledLinksAllowed(settings: Settings, imageFileName: string, size: Size, prefix: string, decodeMethod: string, i: int)
    requires 0 <= i < |NodeOrder|
    ensures |Assemble(settings, imageFileName, size, prefix, decodeMethod)| == |NodeOrder|
    ensures LinksWithin(Assemble(settings, imageFileName, size, prefix, decodeMethod)[i].1, AllowedLinks(i))
  {
  }

  /** Each allowed link names a node inserted before position `i`. */
  lemma AllowedLinksPrecede(i: int)
    requires 0 <= i < |NodeOrder|
    ensures forall x :: x in AllowedLinks(i) ==> x in NodeOrder[..i]
  {
    assert NodeOrder[0] == 1 && NodeOrder[1] == 2 && NodeOrder[2] == 3 && NodeOrder[3] == 12;
    assert NodeOrder[4] == 4 && NodeOrder[5] == 5 && NodeOrder[6] == 6 && NodeOrder[7] == 7;
    assert NodeOrder[8] == 8 && NodeOrder[9] == 9 && NodeOrder[10] == 10;
    forall x | x in AllowedLinks(i) ensures x in NodeOrder[..i] {
      var j :| 0 <= j < i && NodeOrder[j] == x;
      assert NodeOrder[..i][j] == x;
    }
  }

  /** The assembled graph holds the twelve nodes in the order of `NodeOrder`, and every
      link points to a node inserted earlier, whatever the settings. */
  lemma AssembledLinksPointBack(settings: Settings, imageFileName: string, size: Size, prefix: string, decodeMethod: string)
    ensures Ids(Assemble(settings, imageFileName, size, prefix, decodeMethod)) == NodeOrder
    ensures LinksPointBack(Assemble(settings, imageFileName, size, prefix, decodeMethod))
  {
    var g := Assemble(settings, imageFileName, size, prefix, decodeMethod);
    assert Ids(g) == NodeOrder;
    forall i | 0 <= i < |g| ensures LinksWithin(g[i].1, Ids(g[..i])) {
      assert Ids(g[..i]) == NodeOrder[..i];
      AssembledLinksAllowed(settings, imageFileName, size, prefix, decodeMethod, i);
      AllowedLinksPrecede(i);
      LinksWithinWider(g[i].1, AllowedLinks(i), Ids(g[..i]));
    }
  }

  /** Links that point backwards also resolve inside the graph. */
  lemma PointBackResolves(g: Graph)
    requires LinksPointBack(g)
    ensures LinksResolve(g)
  {
    forall i | 0 <= i < |g| ensures LinksWithin(g[i].1, Ids(g)) {
      assert Ids(g[..i]) == Ids(g)[..i];
      LinksWithinWider(g[i].1, Ids(g[..i]), Ids(g));
    }
  }

  /** The built graph holds the twelve nodes, in the order of `NodeOrder`, every link resolves
      inside it, and every link points to a node inserted earlier. */
  lemma WorkflowIsWellFormed(settings: Settings, imageFileName: string, decoded: Option<Size>)
    ensures Ids(BuildWorkflow(settings, imageFileName, decoded)) == NodeOrder
    ensures LinksResolve(BuildWorkflow(settings, imageFileName, decoded))
    ensures LinksPointBack(BuildWorkflow(settings, imageFileName, decoded))
  {
    AssembledLinksPointBack(settings, imageFileName, TargetSize(settings.resolution, decoded),
      FilenamePrefix(settings.prompt), VaeMethod(settings.vaeDecodeMethod, settings.numFrames));
    PointBackResolves(BuildWorkflow(settings, imageFileName, decoded));
  }

  /** Ids are unique, as the keys of a dict are. */
  predicate DistinctIds(g: Graph) {
    forall a, b :: 0 <= a < b < |g| ==> g[a].0 != g[b].0
  }

  /** The node at position `i` reads an output of the node at position `j`. */
  predicate Reads(g: Graph, i: int, j: int) {
    0 <= i < |g| && 0 <= j < |g| &&
    exists k :: 0 <= k < |g[i].1.inputs| && g[i].1.inputs[k].1.Link? && g[i].1.inputs[k].1.node == g[j].0
  }

  /** A chain of positions, each node reading the next one's output. */
  predicate IsPath(g: Graph, p: seq<int>) {
    forall k :: 0 <= k < |p| - 1 ==> Reads(g, p[k], p[k + 1])
  }

  /** In a graph whose links point backwards, every read goes to an earlier position. */
  lemma ReadsGoBack(g: Graph, i: int, j: int)
    requires LinksPointBack(g) && DistinctIds(g) && Reads(g, i, j)
    ensures j < i
  {
    var k :| 0 <= k < |g[i].1.inputs| && g[i].1.inputs[k].1.Link? && g[i].1.inputs[k].1.node == g[j].0;
    assert g[j].0 in Ids(g[..i]);
    var j' :| 0 <= j' < i && Ids(g[..i])[j'] == g[j].0;
    assert g[j'].0 == g[j].0;
  }

  /** Following reads always moves to earlier positions, so no path returns to its start. */
  lemma {:induction false} PathsDescend(g: Graph, p: seq<int>)
    requires LinksPointBack(g) && DistinctIds(g) && IsPath(g, p) && |p| >= 2
    ensures p[|p| - 1] < p[0]
  {
    ReadsGoBack(g, p[0], p[1]);
    if |p| > 2 {
      assert IsPath(g, p[1..]) by {
        forall k | 0 <= k < |p[1..]| - 1 ensures Reads(g, p[1..][k], p[1..][k + 1]) {
          assert Reads(g, p[k + 1], p[k + 2]);
        }
      }
      PathsDescend(g, p[1..]);
    }
  }

  /** A graph whose ids are exactly `NodeOrder` has no repeated id. */
  lemma NodeOrderIdsAreDistinct(g: Graph)
    requires Ids(g) == NodeOrder
    ensures DistinctIds(g)
  {
    forall a, b | 0 <= a < b < |g| ensures g[a].0 != g[b].0 {
      assert Ids(g)[a] == g[a].0 && Ids(g)[b] == g[b].0;
    }
  }

  /** The built graph is acyclic: no chain of reads leads from a node back to itself. */
  lemma WorkflowIsAcyclic(settings: Settings, imageFileName: string, decoded: Option<Size>, p: seq<int>)
    requires IsPath(BuildWorkflow(settings, imageFileName, decoded), p) && |p| >= 2
    ensures p[0] != p[|p| - 1]
  {
    WorkflowIsWellFormed(settings, imageFileName, decoded);
    NodeOrderIdsAreDistinct(BuildWorkflow(settings, imageFileName, decoded));
    PathsDescend(BuildWorkflow(settings, imageFileName, decoded), p);
  }

  /** Looking up an id finds the node stored at the position holding it, when ids are unique. */
  lemma LookupAt(g: Graph, i: int)
    requires DistinctIds(g) && 0 <= i < |g|
    ensures Lookup(g, g[i].0) == Some(g[i].1)
  {
    if i > 0 {
      assert DistinctIds(g[1..]) by {
        forall a, b | 0 <= a < b < |g[1..]| ensures g[1..][a].0 != g[1..][b].0 {
          assert g[a + 1].0 != g[b + 1].0;
        }
      }
      assert g[0].0 != g[i].0;
      LookupAt(g[1..], i - 1);
    }
  }

  /** In the assembled graph, id 8 holds the image-to-video conditioning and id 11 the video writer. */
  lemma AssembledNodes(settings: Settings, imageFileName: string, size: Size, prefix: string, decodeMethod: string)
    ensures Lookup(Assemble(settings, imageFileName, size, prefix, decodeMethod), 8) == Some(ImageToVideoNode(size, settings.numFrames))
    ensures Lookup(Assemble(settings, imageFileName, size, prefix, decodeMethod), 11) == Some(VideoCombineNode(settings.fps, prefix, settings.crf))
  {
    var g := Assemble(settings, imageFileName, size, prefix, decodeMethod);
    AssembledLinksPointBack(settings, imageFileName, size, prefix, decodeMethod);
    NodeOrderIdsAreDistinct(g);
    LookupAt(g, 8);
    LookupAt(g, 11);
  }

  /** The first input named `name` is the one at position `k` when no earlier input has that name. */
  lemma {:induction false} InputAt(inputs: seq<(string, Value)>, k: int, name: string)
    requires 0 <= k < |inputs| && inputs[k].0 == name
    requires forall j :: 0 <= j < k ==> inputs[j].0 != name
    ensures InputIn(inputs, name) == Some(inputs[k].1)
  {
    if k > 0 {
      InputAt(inputs[1..], k - 1, name);
    }
  }

  lemma ImageToVideoInputs(size: Size, length: int)
    ensures ImageToVideoNode(size, length).classType == "WanImageToVideo"
    ensures Input(ImageToVideoNode(size, length), "width") == Some(Int(size.width))
    ensures Input(ImageToVideoNode(size, length), "height") == Some(Int(size.height))
    ensures Input(ImageToVideoNode(size, length), "length") == Some(Int(length))
  {
    var ins := ImageToVideoNode(size, length).inputs;
    assert forall j :: 0 <= j < 5 ==> |ins[j].0| != 5 && |ins[j].0| != 6;
    InputAt(ins, 5, "width");
    assert ins[5].0[0] == 'w';
    InputAt(ins, 6, "height");
    assert ins[6].0[0] == 'h';
    InputAt(ins, 7, "length");
  }

  lemma VideoCombineInputs(fps: real, prefix: string, crf: int)
    ensures VideoCombineNode(fps, prefix, crf).classType == "VHS_VideoCombine"
    ensures Input(VideoCombineNode(fps, prefix, crf), "filename_prefix") == Some(Text(prefix))
    ensures Input(VideoCombineNode(fps, prefix, crf), "frame_rate") == Some(Num(fps))
  {
    var ins := VideoCombineNode(fps, prefix, crf).inputs;
    assert forall j :: 0 <= j < 3 ==> |ins[j].0| != 15;
    InputAt(ins, 3, "filename_prefix");
    assert |ins[0].0| != 10;
    InputAt(ins, 1, "frame_rate");
  }

  /** Node 8 (the image-to-video conditioning) carries the target width and height and the
      frame count as its length. */
  lemma ConditioningCarriesSizeAndLength(settings: Settings, imageFileName: string, decoded: Option<Size>)
    ensures var n := Lookup(BuildWorkflow(settings, imageFileName, decoded), 8);
      && n.Some? && n.value.classType == "WanImageToVideo"
      && Input(n.value, "width") == Some(Int(TargetSize(settings.resolution, decoded).width))
      && Input(n.value, "height") == Some(Int(TargetSize(settings.resolution, decoded).height))
      && Input(n.value, "length") == Some(Int(settings.numFrames))
  {
    var size := TargetSize(settings.resolution, decoded);
    AssembledNodes(settings, imageFileName, size, FilenamePrefix(settings.prompt),
      VaeMethod(settings.vaeDecodeMethod, settings.numFrames));
    ImageToVideoInputs(size, settings.numFrames);
  }

  /** Node 11 (the video writer) names its output after the sanitised prompt plus "_I2V" and
      uses the requested frame rate. */
  lemma WriterUsesPromptPrefix(settings: Settings, imageFileName: string, decoded: Option<Size>)
    ensures var n := Lookup(BuildWorkflow(settings, imageFileName, decoded), 11);
      && n.Some? && n.value.classType == "VHS_VideoCombine"
      && Input(n.value, "filename_prefix") == Some(Text(SafeFilename.SafeFilename(settings.prompt, 50) + "_I2V"))
      && Input(n.value, "frame_rate") == Some(Num(settings.fps))
  {
    AssembledNodes(settings, imageFileName, TargetSize(settings.resolution, decoded), FilenamePrefix(settings.prompt),
      VaeMethod(settings.vaeDecodeMethod, settings.numFrames));
    VideoCombineInputs(settings.fps, FilenamePrefix(settings.prompt), settings.crf);
  }

  /** The VAE decode method is computed but never reaches the graph: node 10 is the plain
      decoder whatever the setting. */
  lemma DecodeMethodDoesNotReachGraph(settings: Settings, imageFileName: string, decoded: Option<Size>, other: string)
    ensures BuildWorkflow(settings.(vaeDecodeMethod := other), imageFileName, decoded) == BuildWorkflow(settings, imageFileName, decoded)
  {
  }
}
