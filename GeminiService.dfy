/** The request side and the result side of the image-generation service:
    MIME sniffing of the uploaded image, the prompt built from the chosen
    options, and the flattening of the service's responses into data URIs.
    The service itself is a parameter (`send`). */
module GeminiService {
  import opened Wrappers
  import opened Text
  import opened Types

  // ---------------------------------------------------------------------
  // MIME sniffing
  // ---------------------------------------------------------------------

  /** The leading base64 text of each recognised image format, in the order
      the lookup visits them, with the MIME type it announces. */
  const Signatures: seq<(string, string)> :=
    [("R0lGOD", "image/gif"), ("iVBORw0KGgo", "image/png"), ("/9j/", "image/jpeg")]

  const DefaultMimeType: string := "image/jpeg"

  /** The MIME type of the first entry of `table` whose signature starts
      `base64`, or the default. */
  function FirstMatch(table: seq<(string, string)>, base64: string): string
    decreases |table|
  {
    if table == [] then DefaultMimeType
    else if table[0].0 <= base64 then table[0].1
    else FirstMatch(table[1..], base64)
  }

  /** No text starts with two different signatures. */
  lemma SignaturesExclusive(base64: string)
    ensures forall i, j :: 0 <= i < j < |Signatures| ==>
      !(Signatures[i].0 <= base64 && Signatures[j].0 <= base64)
  {
    assert Signatures[0].0[0] == 'R' && Signatures[1].0[0] == 'i' && Signatures[2].0[0] == '/';
  }

  /** The sniffed type does not depend on the order of the table: it is the
      type of whichever signature matches, the default when none does, and
      always one of the three image types. */
  lemma {:induction false} SniffedType(base64: string)
    ensures forall k :: 0 <= k < |Signatures| && Signatures[k].0 <= base64 ==>
      FirstMatch(Signatures, base64) == Signatures[k].1
    ensures (forall k :: 0 <= k < |Signatures| ==> !(Signatures[k].0 <= base64)) ==>
      FirstMatch(Signatures, base64) == DefaultMimeType
    ensures FirstMatch(Signatures, base64) in {"image/gif", "image/png", "image/jpeg"}
  {
    SignaturesExclusive(base64);
    assert Signatures[1..][1..] == Signatures[2..];
  }

  /** `getMimeType`: visit the signatures in order and return the type of the
      first one found at position 0 of the text, else JPEG. */
  method GetMimeType(base64: string) returns (mime: string)
    ensures mime == FirstMatch(Signatures, base64)
  {
    var i := 0;
    while i < |Signatures|
      invariant 0 <= i <= |Signatures|
      invariant FirstMatch(Signatures[i..], base64) == FirstMatch(Signatures, base64)
    {
      var (signature, mimeType) := Signatures[i];
      assert Signatures[i..][1..] == Signatures[i + 1..];
      if signature <= base64 {
        return mimeType;
      }
      i := i + 1;
    }
    return DefaultMimeType;
  }

  // ---------------------------------------------------------------------
  // Prompt construction
  // ---------------------------------------------------------------------

  const StandingPose: string := "The model is in a classic, confident standing pose."

  /** `getPoseDescription`. `Standing` shares the default arm of the
      `switch`; no other value of the enumeration reaches it. */
  function PoseDescription(pose: ModelPose): string {
    match pose
    case Sitting => "The model is in a natural sitting pose on a minimalist chair or stool."
    case Action => "The model is captured mid-motion in a dynamic, energetic pose, as if jumping or dancing lightly."
    case Walking => "The model is walking towards the camera with a confident stride."
    case Leaning => "The model is casually leaning against a simple wall or surface, creating a relaxed feel."
    case LookingAway => "The model is looking away from the camera, creating a candid and thoughtful mood."
    case HandsOnHips => "The model is standing with hands confidently on hips, showcasing the garment's fit and form."
    case Standing => StandingPose
  }

  const StudioBackground: string :=
    "The photo is set against a clean, minimalist studio background (light gray or white)."

  /** `getBackgroundDescription`. `Studio` shares the default arm. */
  function BackgroundDescription(style: BackgroundStyle): string {
    match style
    case Outdoor =>
      "The photo is set in a serene outdoor location, like a modern city street or a beautiful park, with soft, natural lighting."
    case Abstract =>
      "The model is set against an abstract, artistic background with subtle color gradients or soft geometric shapes that complement the outfit."
    case Studio => StudioBackground
  }

  /** The garment wording of the category `switch`. */
  function GarmentPhrase(category: ClothingCategory): string {
    match category
    case Kurta => " wearing a stylish, modern long-sleeve Kurta made entirely of this texture."
    case Shirt => " wearing a crisp, long-sleeve button-up shirt made of this texture."
    case TShirt => " wearing a high-quality, well-fitting crew neck t-shirt made of this texture."
    case Dress => " wearing an elegant, knee-length A-line dress made of this texture."
    case Jacket => " wearing a fashionable bomber jacket made of this texture, worn over a plain white t-shirt."
    case Saree => " wearing an elegant, traditional Saree made entirely from this texture, draped gracefully."
  }

  /** A prefix of `b` is a prefix of any extension of `b`; stated apart so
      that the long clauses are not in scope when it is used. */
  lemma PrefixOfLonger(a: string, b: string, c: string)
    requires a <= b
    ensures a <= b + c
  {
  }

  /** The sentence the category `switch` assigns: the model descriptor
      followed by the garment. */
  function CategoryDescription(category: ClothingCategory, model: string): (clause: string)
    ensures model <= clause
  {
    model + GarmentPhrase(category)
  }

  /** The model descriptor: "A professional", the appearance, the lower-cased
      gender unless it is `Unspecified`, and "model", separated by spaces. */
  function ModelDescription(gender: ModelGender, appearance: ModelAppearance): string {
    var opening := "A professional" + " " + appearance.Label();
    if gender != Unspecified then opening + " " + LowerAscii(gender.Label()) + " model"
    else opening + " model"
  }

  const CommonPrompt: string :=
    "A high-fashion, photorealistic image. The photo should be full-body or upper-body, well-lit. The clothing should fit perfectly and look stylish."

  /** The prompt: garment sentence, pose clause, common clause and background
      clause, in that order, separated by single spaces. */
  function Prompt(category: ClothingCategory, pose: ModelPose, background: BackgroundStyle,
                  gender: ModelGender, appearance: ModelAppearance): string
  {
    CategoryDescription(category, ModelDescription(gender, appearance))
    + (" " + PoseDescription(pose) + " " + CommonPrompt + " " + BackgroundDescription(background))
  }

  /** `constructPrompt`, with the descriptor built up by `+=`. */
  method ConstructPrompt(category: ClothingCategory, pose: ModelPose, background: BackgroundStyle,
                         gender: ModelGender, appearance: ModelAppearance)
    returns (prompt: string)
    ensures prompt == Prompt(category, pose, background, gender, appearance)
  {
    var poseDescription := PoseDescription(pose);
    var backgroundDescription := BackgroundDescription(background);
    var modelDescription := "A professional";
    modelDescription := modelDescription + " " + appearance.Label();
    if gender != Unspecified {
      modelDescription := modelDescription + " " + LowerAscii(gender.Label());
    }
    modelDescription := modelDescription + " model";
    var categoryDescription := CategoryDescription(category, modelDescription);
    prompt := categoryDescription + (" " + poseDescription + " " + CommonPrompt + " " + backgroundDescription);
  }

  /** Every prompt opens with the model descriptor. */
  lemma PromptOpening(category: ClothingCategory, pose: ModelPose, background: BackgroundStyle,
                      gender: ModelGender, appearance: ModelAppearance)
    ensures ModelDescription(gender, appearance) <= Prompt(category, pose, background, gender, appearance)
  {
    var m := ModelDescription(gender, appearance);
    var c := CategoryDescription(category, m);
    var rest := " " + PoseDescription(pose) + " " + CommonPrompt + " " + BackgroundDescription(background);
    PrefixOfLonger(m, c, rest);
  }

  /** The descriptor names the appearance and then the gender word, `female`
      or `male`; for `Unspecified` no gender word appears. */
  lemma ModelDescriptions(gender: ModelGender, appearance: ModelAppearance)
    ensures gender == Female ==>
      ModelDescription(gender, appearance) == "A professional" + " " + appearance.Label() + " " + "female" + " model"
    ensures gender == Male ==>
      ModelDescription(gender, appearance) == "A professional" + " " + appearance.Label() + " " + "male" + " model"
    ensures gender == Unspecified ==>
      ModelDescription(gender, appearance) == "A professional" + " " + appearance.Label() + " model"
  {
    LowerGenderLabels();
  }

  /** The default options give the Indian female model in the button-up
      shirt, then the standing, common and studio clauses. */
  lemma PromptExample()
    ensures Prompt(Shirt, Standing, Studio, Female, Indian) ==
      ("A professional" + " " + "Indian" + " " + "female" + " model"
       + " wearing a crisp, long-sleeve button-up shirt made of this texture.")
      + (" " + StandingPose + " " + CommonPrompt + " " + StudioBackground)
  {
    LowerGenderLabels();
  }

  // ---------------------------------------------------------------------
  // Responses and their aggregation
  // ---------------------------------------------------------------------

  /** An inline image payload: base64 data and its MIME type. */
  datatype InlineData = InlineData(data: string, mimeType: string)
  /** A response part; text parts carry no inline data. */
  datatype Part = Part(inlineData: Option<InlineData>)
  datatype Candidate = Candidate(parts: seq<Part>)
  /** A response; one whose `candidates` is absent has the empty list. */
  datatype Response = Response(candidates: seq<Candidate>)

  /** What the concurrent calls amount to once joined: every response, or the
      rejection that ended the join. */
  datatype Settled = AllResolved(responses: seq<Response>) | Rejected(reason: string)

  const ModelName: string := "gemini-2.5-flash-image"

  /** One generation request, sent `count` times. */
  datatype Request = Request(model: string, image: InlineData, prompt: string, count: nat)

  const NoImagesMessage: string := "Model did not return any images."
  /** What V8 throws when `getMimeType` is handed `undefined`; other
      engines word this TypeError differently. */
  const UndefinedPayloadMessage: string := "Cannot read properties of undefined (reading 'indexOf')"

  /** A self-describing image: `data:<mime>;base64,<payload>`. */
  function DataUri(mimeType: string, data: string): string {
    "data:" + mimeType + ";base64," + data
  }

  /** A part contributes the data URI of its inline data, if it has any. */
  function PartImage(part: Part): (images: seq<string>)
    ensures |images| == if part.inlineData.Some? then 1 else 0
  {
    match part.inlineData
    case Some(d) => [DataUri(d.mimeType, d.data)]
    case None => []
  }

  /** The data URIs of the inline parts, in order. */
  function PartImages(parts: seq<Part>): (images: seq<string>)
    ensures |images| <= |parts|
    decreases |parts|
  {
    if parts == [] then [] else PartImages(parts[..|parts| - 1]) + PartImage(parts[|parts| - 1])
  }

  /** Only the first candidate of a response is looked at. */
  function ResponseImages(response: Response): seq<string> {
    if |response.candidates| > 0 then PartImages(response.candidates[0].parts) else []
  }

  /** The images of all responses, response by response. */
  function ImagesOf(responses: seq<Response>): seq<string>
    decreases |responses|
  {
    if responses == [] then []
    else ImagesOf(responses[..|responses| - 1]) + ResponseImages(responses[|responses| - 1])
  }

  /** Aggregation is a homomorphism: the images of two batches of responses
      are the images of the first followed by those of the second. */
  lemma {:induction false} ImagesOfAppend(a: seq<Response>, b: seq<Response>)
    ensures ImagesOf(a + b) == ImagesOf(a) + ImagesOf(b)
    decreases |b|
  {
    if b == [] {
      assert a + b == a;
    } else {
      var b', last := b[..|b| - 1], b[|b| - 1];
      assert (a + b)[..|a + b| - 1] == a + b';
      assert (a + b)[|a + b| - 1] == last;
      ImagesOfAppend(a, b');
      calc {
        ImagesOf(a + b);
        ImagesOf(a + b') + ResponseImages(last);
        ImagesOf(a) + ImagesOf(b') + ResponseImages(last);
        ImagesOf(a) + (ImagesOf(b') + ResponseImages(last));
        ImagesOf(a) + ImagesOf(b);
      }
    }
  }

  /** A response without candidates contributes nothing, wherever it stands. */
  lemma NoCandidatesNoImages(a: seq<Response>, b: seq<Response>)
    ensures ImagesOf(a + [Response([])] + b) == ImagesOf(a + b)
  {
    var c := a + [Response([])];
    assert c[..|c| - 1] == a;
    assert ImagesOf(c) == ImagesOf(a) + [];
    assert ImagesOf(a) + [] == ImagesOf(a);
    ImagesOfAppend(c, b);
    ImagesOfAppend(a, b);
  }

  /** The part of `generateModelImages` after the join: no images is an
      error, any other number (even fewer than requested) is returned. */
  function Aggregate(responses: seq<Response>): (r: Result<seq<string>>)
    ensures r.Err? <==> ImagesOf(responses) == []
    ensures r.Err? ==> r.message == NoImagesMessage
    ensures r.Ok? ==> r.value == ImagesOf(responses)
  {
    var images := ImagesOf(responses);
    if |images| == 0 then Err(NoImagesMessage) else Ok(images)
  }

  /** The outcome of the whole call, given how the join settled. */
  function Settle(settled: Settled): Result<seq<string>> {
    match settled
    case Rejected(reason) => Err(reason)
    case AllResolved(responses) => Aggregate(responses)
  }

  /** Three requests of which two come back with one image each give those
      two images and no error; requests that all come back empty fail. */
  lemma AggregateExamples(d1: InlineData, d2: InlineData)
    ensures var one := Response([Candidate([Part(Some(d1))])]);
            var two := Response([Candidate([Part(None), Part(Some(d2))])]);
            Aggregate([one, Response([]), two]) ==
              Ok([DataUri(d1.mimeType, d1.data), DataUri(d2.mimeType, d2.data)])
    ensures Aggregate([Response([]), Response([Candidate([])]), Response([Candidate([Part(None)])])]) ==
      Err(NoImagesMessage)
  {
    var u1, u2 := DataUri(d1.mimeType, d1.data), DataUri(d2.mimeType, d2.data);
    var p1 := [Part(Some(d1))];
    var p2 := [Part(None), Part(Some(d2))];
    assert p1[..0] == [];
    assert PartImages(p1) == [u1];
    assert p2[..1] == [Part(None)] && [Part(None)][..0] == [];
    assert PartImages([Part(None)]) == [];
    assert PartImages(p2) == [u2];
    var one := Response([Candidate(p1)]);
    var two := Response([Candidate(p2)]);
    var rs := [one, Response([]), two];
    assert rs[..2] == [one, Response([])] && rs[..2][..1] == [one] && [one][..0] == [];
    assert ImagesOf([one]) == [u1];
    assert ImagesOf([one, Response([])]) == [u1];
    assert ImagesOf(rs) == [u1, u2];
    var none := [Response([]), Response([Candidate([])]), Response([Candidate([Part(None)])])];
    assert none[..2] == [Response([]), Response([Candidate([])])];
    assert none[..2][..1] == [Response([])] && [Response([])][..0] == [];
    assert ImagesOf(none[..2][..1]) == [];
    assert ImagesOf(none[..2]) == [];
    assert ImagesOf(none) == [];
  }

  /** The nested loops of `generateModelImages` that push one data URI per
      inline part of each response's first candidate. */
  method CollectImages(responses: seq<Response>) returns (images: seq<string>)
    ensures images == ImagesOf(responses)
  {
    images := [];
    for i := 0 to |responses|
      invariant images == ImagesOf(responses[..i])
    {
      var response := responses[i];
      assert responses[..i + 1][..i] == responses[..i];
      assert ImagesOf(responses[..i + 1]) == ImagesOf(responses[..i]) + ResponseImages(response);
      if |response.candidates| > 0 {
        var parts := response.candidates[0].parts;
        ghost var before := images;
        for j := 0 to |parts|
          invariant images == before + PartImages(parts[..j])
        {
          assert parts[..j + 1][..j] == parts[..j];
          assert PartImages(parts[..j + 1]) == PartImages(parts[..j]) + PartImage(parts[j]);
          var part := parts[j];
          if part.inlineData.Some? {
            var base64 := part.inlineData.value.data;
            var mimeType := part.inlineData.value.mimeType;
            assert before + PartImages(parts[..j]) + [DataUri(mimeType, base64)]
              == before + (PartImages(parts[..j]) + [DataUri(mimeType, base64)]);
            images := images + [DataUri(mimeType, base64)];
          } else {
            assert PartImages(parts[..j]) + [] == PartImages(parts[..j]);
          }
        }
        assert parts[..|parts|] == parts;
      } else {
        assert images + [] == images;
      }
    }
    assert responses[..|responses|] == responses;
  }

  /** What `generateModelImages` does once the join has settled: a rejection
      is rethrown, otherwise the collected images, none being an error. */
  method SettleResponses(settled: Settled) returns (result: Result<seq<string>>)
    ensures result == Settle(settled)
  {
    if settled.Rejected? {
      return Err(settled.reason);
    }
    var generatedImages := CollectImages(settled.responses);
    if |generatedImages| == 0 {
      return Err(NoImagesMessage);
    }
    return Ok(generatedImages);
  }

  /** What `generateModelImages` comes to, without the network: the payload
      after the first comma is sniffed and sent with the prompt, and
      whatever comes back is aggregated. A data URL without a comma has no
      payload, and sniffing `undefined` throws before anything is sent. A
      success always carries at least one image. */
  function GenerationOutcome(base64Image: string, category: ClothingCategory, numImages: nat,
                             pose: ModelPose, background: BackgroundStyle, gender: ModelGender,
                             appearance: ModelAppearance, send: Request -> Settled)
    : (r: Result<seq<string>>)
    ensures Field(base64Image, ',', 1).None? ==> r == Err(UndefinedPayloadMessage)
    ensures r.Ok? ==> |r.value| > 0
  {
    match Field(base64Image, ',', 1)
    case None => Err(UndefinedPayloadMessage)
    case Some(payload) => Settle(send(RequestFor(payload, category, numImages, pose, background, gender, appearance)))
  }

  /** The request `generateModelImages` sends for a payload: the image part
      with the sniffed type, the prompt, and the number of images wanted. */
  function RequestFor(payload: string, category: ClothingCategory, numImages: nat,
                      pose: ModelPose, background: BackgroundStyle, gender: ModelGender,
                      appearance: ModelAppearance): Request
  {
    Request(ModelName, InlineData(payload, FirstMatch(Signatures, payload)), Prompt(category, pose, background, gender, appearance), numImages)
  }

  /** `generateModelImages`: build the image part and the prompt, hand the
      request to `send` (the concurrent calls and their join), and
      aggregate what comes back. */
  method GenerateModelImages(base64Image: string, category: ClothingCategory, numImages: nat,
                             pose: ModelPose, background: BackgroundStyle, gender: ModelGender,
                             appearance: ModelAppearance, send: Request -> Settled)
    returns (result: Result<seq<string>>)
    ensures Field(base64Image, ',', 1).None? ==> result == Err(UndefinedPayloadMessage)
    ensures Field(base64Image, ',', 1).Some? ==>
      result == Settle(send(RequestFor(Field(base64Image, ',', 1).value, category, numImages, pose, background, gender, appearance)))
  {
    var payload := Field(base64Image, ',', 1);
    if payload.None? {
      return Err(UndefinedPayloadMessage);
    }
    var mimeType := GetMimeType(payload.value);
    var imageDataPart := InlineData(payload.value, mimeType);
    var textPart := ConstructPrompt(category, pose, background, gender, appearance);
    var request := Request(ModelName, imageDataPart, textPart, numImages);
    assert request == RequestFor(payload.value, category, numImages, pose, background, gender, appearance);
    var settled := send(request);
    result := SettleResponses(settled);
  }
}
