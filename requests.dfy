/**
 * The request bodies sent to the three image-generation models
 * (`generate_image_sd`, `generate_image_titan`, `generate_image_nova`),
 * up to the point where they are handed to the inference client.
 */
module Requests {
  import opened Wrappers

  /** The JSON values `json.dumps` is given: Python ints, floats, strings, lists and dicts. */
  datatype Json =
    | JInt(i: int)
    | JFloat(r: real)
    | JStr(s: string)
    | JArray(items: seq<Json>)
    | JObject(fields: map<string, Json>)

  /** The style preset offered for Stable Diffusion; `"None"` is the sentinel for "no style". */
  const NoStyle: string := "None"

  const SdPresets: seq<string> := [
    NoStyle, "3d-model", "analog-film", "anime", "cinematic", "comic-book",
    "digital-art", "enhance", "fantasy-art", "isometric", "line-art", "low-poly",
    "modeling-compound", "neon-punk", "origami", "photographic", "pixel-art", "tile-texture"
  ]

  const SdModelId: string := "stability.stable-diffusion-xl-v1"
  const TitanModelId: string := "amazon.titan-image-generator-v2:0"
  const NovaModelId: string := "amazon.nova-canvas-v1:0"
  const JsonMime: string := "application/json"

  // ---------------------------------------------------------------- Stable Diffusion

  /** The Stable Diffusion body: one text prompt, fixed sampler settings, an optional style. */
  datatype SdBody = SdBody(prompt: string, cfgScale: int, seed: int, steps: int, stylePreset: Option<string>)

  /** The Stable Diffusion body the program means to send for a prompt and a selected style. */
  function SdRequestBody(text: string, style: string): SdBody
  {
    SdBody(text, 10, 0, 50, if style == NoStyle then None else Some(style))
  }

  /** The `text_prompts` value: a one-element list holding `{"text": text}`. */
  function PromptListJson(text: string): Json
  {
    JArray([JObject(map["text" := JStr(text)])])
  }

  /** The JSON dict of a Stable Diffusion body; the style key is present only for `Some`. */
  function SdBodyJson(b: SdBody): Json
  {
    var fixed := map[
      "text_prompts" := PromptListJson(b.prompt),
      "cfg_scale" := JInt(b.cfgScale),
      "seed" := JInt(b.seed),
      "steps" := JInt(b.steps)
    ];
    match b.stylePreset
    case None => JObject(fixed)
    case Some(style) => JObject(fixed["style_preset" := JStr(style)])
  }

  /** Reads a Stable Diffusion body back from its JSON dict; `None` for any other shape. */
  function ParseSdBody(j: Json): Option<SdBody>
  {
    if !j.JObject? then None
    else
      var f := j.fields;
      if !("text_prompts" in f && "cfg_scale" in f && "seed" in f && "steps" in f) then None
      else if !(f.Keys <= {"text_prompts", "cfg_scale", "seed", "steps", "style_preset"}) then None
      else
        var prompts := f["text_prompts"];
        if !(prompts.JArray? && |prompts.items| == 1 && prompts.items[0].JObject?) then None
        else
          var p := prompts.items[0].fields;
          if !(p.Keys == {"text"} && p["text"].JStr?) then None
          else if !(f["cfg_scale"].JInt? && f["seed"].JInt? && f["steps"].JInt?) then None
          else if "style_preset" in f && !f["style_preset"].JStr? then None
          else
            var style := if "style_preset" in f then Some(f["style_preset"].s) else None;
            Some(SdBody(p["text"].s, f["cfg_scale"].i, f["seed"].i, f["steps"].i, style))
  }

  /** Every Stable Diffusion body is recovered from its JSON dict. */
  lemma SdBodyRoundTrip(b: SdBody)
    ensures ParseSdBody(SdBodyJson(b)) == Some(b)
  {
  }

  /**
   * `generate_image_sd` up to the model call: the dict is built with every key,
   * then its `style_preset` entry is deleted when the style is the `"None"` sentinel.
   */
  method BuildSdBody(text: string, style: string) returns (body: map<string, Json>)
    ensures "style_preset" in body <==> style != NoStyle
    ensures "style_preset" in body ==> body["style_preset"] == JStr(style)
    ensures body.Keys - {"style_preset"} == {"text_prompts", "cfg_scale", "seed", "steps"}
    ensures body["text_prompts"] == PromptListJson(text)
    ensures body["cfg_scale"] == JInt(10) && body["seed"] == JInt(0) && body["steps"] == JInt(50)
    ensures JObject(body) == SdBodyJson(SdRequestBody(text, style))
    ensures ParseSdBody(JObject(body)) == Some(SdRequestBody(text, style))
  {
    body := map[
      "text_prompts" := PromptListJson(text),
      "cfg_scale" := JInt(10),
      "seed" := JInt(0),
      "steps" := JInt(50),
      "style_preset" := JStr(style)
    ];
    if style == NoStyle {
      body := body - {"style_preset"};
    }
    SdBodyRoundTrip(SdRequestBody(text, style));
  }

  /**
   * Of the eighteen entries of the style selector, only the first (`"None"`)
   * leaves the style out; each other entry is sent as it is.
   */
  lemma SdPresetStyles(text: string)
    ensures |SdPresets| == 18
    ensures SdRequestBody(text, SdPresets[0]).stylePreset == None
    ensures forall i :: 1 <= i < |SdPresets| ==> SdRequestBody(text, SdPresets[i]).stylePreset == Some(SdPresets[i])
  {
  }

  // ---------------------------------------------------------------- Titan and Nova

  /** The `imageGenerationConfig` object shared by the Titan and Nova bodies. */
  datatype GenerationConfig = GenerationConfig(
    cfgScale: real, seed: int, quality: string, width: int, height: int, numberOfImages: int)

  /** The Titan / Nova text-to-image body. */
  datatype TextToImageBody = TextToImageBody(text: string, taskType: string, config: GenerationConfig)

  function TextToImage(text: string, seed: int): TextToImageBody
  {
    TextToImageBody(text, "TEXT_IMAGE", GenerationConfig(8.0, seed, "standard", 1024, 1024, 1))
  }

  /** The body of `generate_image_titan`. */
  function TitanBody(text: string): TextToImageBody
  {
    TextToImage(text, 0)
  }

  /** The body of `generate_image_nova`. */
  function NovaBody(text: string): TextToImageBody
  {
    TextToImage(text, 42)
  }

  /**
   * Titan and Nova send the same body except for the seed (0 against 42):
   * a single square 1024x1024 standard-quality text-to-image request.
   */
  lemma TitanNovaDifferOnlyInSeed(text: string)
    ensures TitanBody(text).config.seed == 0 && NovaBody(text).config.seed == 42
    ensures NovaBody(text) == TitanBody(text).(config := TitanBody(text).config.(seed := 42))
    ensures forall b :: b in [TitanBody(text), NovaBody(text)] ==>
      && b.text == text && b.taskType == "TEXT_IMAGE"
      && b.config.width == 1024 && b.config.height == 1024
      && b.config.numberOfImages == 1 && b.config.cfgScale == 8.0 && b.config.quality == "standard"
  {
  }

  function ConfigJson(c: GenerationConfig): Json
  {
    JObject(map[
      "cfgScale" := JFloat(c.cfgScale),
      "seed" := JInt(c.seed),
      "quality" := JStr(c.quality),
      "width" := JInt(c.width),
      "height" := JInt(c.height),
      "numberOfImages" := JInt(c.numberOfImages)
    ])
  }

  /** The JSON dict of a Titan / Nova body. */
  function TextToImageJson(b: TextToImageBody): Json
  {
    JObject(map[
      "textToImageParams" := JObject(map["text" := JStr(b.text)]),
      "taskType" := JStr(b.taskType),
      "imageGenerationConfig" := ConfigJson(b.config)
    ])
  }

  function ParseConfig(j: Json): Option<GenerationConfig>
  {
    if !j.JObject? then None
    else
      var f := j.fields;
      if f.Keys != {"cfgScale", "seed", "quality", "width", "height", "numberOfImages"} then None
      else if !(f["cfgScale"].JFloat? && f["seed"].JInt? && f["quality"].JStr?) then None
      else if !(f["width"].JInt? && f["height"].JInt? && f["numberOfImages"].JInt?) then None
      else Some(GenerationConfig(f["cfgScale"].r, f["seed"].i, f["quality"].s,
                                 f["width"].i, f["height"].i, f["numberOfImages"].i))
  }

  /** Reads a Titan / Nova body back from its JSON dict; `None` for any other shape. */
  function ParseTextToImage(j: Json): Option<TextToImageBody>
  {
    if !j.JObject? then None
    else
      var f := j.fields;
      if f.Keys != {"textToImageParams", "taskType", "imageGenerationConfig"} then None
      else
        var params := f["textToImageParams"];
        if !(params.JObject? && params.fields.Keys == {"text"} && params.fields["text"].JStr?) then None
        else if !f["taskType"].JStr? then None
        else match ParseConfig(f["imageGenerationConfig"])
          case None => None
          case Some(c) => Some(TextToImageBody(params.fields["text"].s, f["taskType"].s, c))
  }

  /** Every Titan / Nova body is recovered from its JSON dict. */
  lemma TextToImageRoundTrip(b: TextToImageBody)
    ensures ParseTextToImage(TextToImageJson(b)) == Some(b)
  {
  }

  // ---------------------------------------------------------------- dispatch

  /** The three models offered by the model selector. */
  datatype ModelChoice = NovaCanvas | AmazonTitan | StableDiffusion

  /** What is handed to the inference client: model id, accept and content type, and the body. */
  datatype Invocation = Invocation(modelId: string, accept: string, contentType: string, body: Json)

  /**
   * The request the Generate action issues for the selected model.
   * `style` is the value of the style selector, which only Stable Diffusion reads.
   */
  method BuildInvocation(model: ModelChoice, prompt: string, style: string) returns (inv: Invocation)
    ensures inv.accept == JsonMime && inv.contentType == JsonMime
    ensures model == NovaCanvas ==>
      inv.modelId == NovaModelId && ParseTextToImage(inv.body) == Some(NovaBody(prompt))
    ensures model == AmazonTitan ==>
      inv.modelId == TitanModelId && ParseTextToImage(inv.body) == Some(TitanBody(prompt))
    ensures model == StableDiffusion ==>
      inv.modelId == SdModelId && ParseSdBody(inv.body) == Some(SdRequestBody(prompt, style))
  {
    match model
    case NovaCanvas =>
      TextToImageRoundTrip(NovaBody(prompt));
      inv := Invocation(NovaModelId, JsonMime, JsonMime, TextToImageJson(NovaBody(prompt)));
    case AmazonTitan =>
      TextToImageRoundTrip(TitanBody(prompt));
      inv := Invocation(TitanModelId, JsonMime, JsonMime, TextToImageJson(TitanBody(prompt)));
    case StableDiffusion =>
      var body := BuildSdBody(prompt, style);
      inv := Invocation(SdModelId, JsonMime, JsonMime, JObject(body));
  }
}
