/** The application's state and its handlers: the uploaded texture, the
    generation options, the results and the flags of the interface, and the
    generation lifecycle that runs the service and records its outcome. */
module AppState {
  import opened Wrappers
  import opened Types
  import opened GeminiService
  import ImageGrid

  const MissingImageMessage: string := "Please upload a cloth texture image first."
  const UnknownErrorMessage: string := "An unknown error occurred during image generation."
  const DefaultImageCount: nat := 2

  /** `clothImage` is truthy: present and not the empty string. */
  predicate HasImage(clothImage: Option<string>) {
    clothImage.Some? && clothImage.value != ""
  }

  /** The text stored for a failed generation: an empty (falsy) message is
      replaced by the fallback. */
  function ErrorText(message: string): (text: string)
    ensures text != ""
    ensures message != "" ==> text == message
    ensures message == "" ==> text == UnknownErrorMessage
  {
    if message == "" then UnknownErrorMessage else message
  }

  /** Every state variable of the application at one moment. */
  datatype Snapshot = Snapshot(
    clothImage: Option<string>,
    generatedImages: seq<string>,
    clothingCategory: ClothingCategory,
    modelPose: ModelPose,
    backgroundStyle: BackgroundStyle,
    modelGender: ModelGender,
    numImages: nat,
    isLoading: bool,
    error: Option<string>,
    isCameraOpen: bool)

  /** The state on first render. */
  const Initial: Snapshot :=
    Snapshot(None, [], Shirt, Standing, Studio, Female, DefaultImageCount, false, None, false)

  class App {
    var clothImage: Option<string>
    var generatedImages: seq<string>
    var clothingCategory: ClothingCategory
    var modelPose: ModelPose
    var backgroundStyle: BackgroundStyle
    var modelGender: ModelGender
    var numImages: nat
    var isLoading: bool
    var error: Option<string>
    var isCameraOpen: bool

    function State(): Snapshot
      reads this
    {
      Snapshot(clothImage, generatedImages, clothingCategory, modelPose, backgroundStyle,
               modelGender, numImages, isLoading, error, isCameraOpen)
    }

    constructor()
      ensures State() == Initial
    {
      clothImage := None;
      generatedImages := [];
      clothingCategory := Shirt;
      modelPose := Standing;
      backgroundStyle := Studio;
      modelGender := Female;
      numImages := DefaultImageCount;
      isLoading := false;
      error := None;
      isCameraOpen := false;
    }

    /** The generate control is disabled exactly when there is no texture. */
    function IsDisabled(): (disabled: bool)
      reads this
      ensures disabled <==> clothImage.None? || clothImage.value == ""
    {
      !HasImage(clothImage)
    }

    /** What the results panel shows for the current state. */
    function ResultsView(): ImageGrid.View
      reads this
    {
      ImageGrid.SelectView(generatedImages, isLoading, error, numImages)
    }

    method HandleImageSelected(base64Image: string)
      modifies this
      ensures State() == old(State()).(clothImage := Some(base64Image))
    {
      clothImage := Some(base64Image);
    }

    method HandleRemoveImage()
      modifies this
      ensures State() == old(State()).(clothImage := None)
      ensures IsDisabled()
    {
      clothImage := None;
    }

    method HandleOpenCamera()
      modifies this
      ensures State() == old(State()).(isCameraOpen := true)
    {
      isCameraOpen := true;
    }

    method HandleCloseCamera()
      modifies this
      ensures State() == old(State()).(isCameraOpen := false)
    {
      isCameraOpen := false;
    }

    /** A captured photo becomes the texture and the camera closes. */
    method HandleCapture(base64Image: string)
      modifies this
      ensures State() == old(State()).(clothImage := Some(base64Image), isCameraOpen := false)
    {
      clothImage := Some(base64Image);
      isCameraOpen := false;
    }

    method SetClothingCategory(category: ClothingCategory)
      modifies this
      ensures State() == old(State()).(clothingCategory := category)
    {
      clothingCategory := category;
    }

    method SetModelPose(pose: ModelPose)
      modifies this
      ensures State() == old(State()).(modelPose := pose)
    {
      modelPose := pose;
    }

    method SetBackgroundStyle(style: BackgroundStyle)
      modifies this
      ensures State() == old(State()).(backgroundStyle := style)
    {
      backgroundStyle := style;
    }

    method SetModelGender(gender: ModelGender)
      modifies this
      ensures State() == old(State()).(modelGender := gender)
    {
      modelGender := gender;
    }

    method SetNumImages(count: nat)
      modifies this
      ensures State() == old(State()).(numImages := count)
    {
      numImages := count;
    }

    /** The synchronous start of `handleGenerate`. Without a texture only the
        error is set and nothing is sent; otherwise loading starts, the error
        is cleared and the previous results are dropped, so the results panel
        shows the skeletons. */
    method BeginGenerate() returns (proceed: bool)
      modifies this
      ensures proceed <==> HasImage(old(clothImage))
      ensures !proceed ==> State() == old(State()).(error := Some(MissingImageMessage))
      ensures proceed ==>
        State() == old(State()).(isLoading := true, error := None, generatedImages := [])
        && ResultsView() == ImageGrid.Skeletons(numImages)
    {
      if !HasImage(clothImage) {
        error := Some(MissingImageMessage);
        return false;
      }
      isLoading := true;
      error := None;
      generatedImages := [];
      return true;
    }

    /** The `try`/`catch`/`finally` after the service call: a success stores
        the images, a failure stores its message (or the fallback), and
        loading ends either way. */
    method FinishGenerate(outcome: Result<seq<string>>)
      modifies this
      ensures outcome.Ok? ==>
        State() == old(State()).(generatedImages := outcome.value, isLoading := false)
      ensures outcome.Err? ==>
        State() == old(State()).(error := Some(ErrorText(outcome.message)), isLoading := false)
    {
      if outcome.Ok? {
        generatedImages := outcome.value;
      } else {
        error := Some(ErrorText(outcome.message));
      }
      isLoading := false;
    }

    /** `handleGenerate` as a whole. The service is called with the texture,
        the current options and the Indian appearance; a successful run
        leaves the grid of its images on screen, a failed one the error. */
    method HandleGenerate(send: Request -> Settled)
      modifies this
      ensures !HasImage(old(clothImage)) ==>
        State() == old(State()).(error := Some(MissingImageMessage))
      ensures HasImage(old(clothImage)) ==>
        var outcome := GenerationOutcome(old(clothImage).value, old(clothingCategory), old(numImages),
                                         old(modelPose), old(backgroundStyle), old(modelGender), Indian, send);
        && (outcome.Ok? ==>
              State() == old(State()).(generatedImages := outcome.value, error := None, isLoading := false)
              && ResultsView() == ImageGrid.Grid(outcome.value))
        && (outcome.Err? ==>
              State() == old(State()).(generatedImages := [], error := Some(ErrorText(outcome.message)), isLoading := false)
              && ResultsView() == ImageGrid.ErrorPanel(ErrorText(outcome.message)))
    {
      var proceed := BeginGenerate();
      if !proceed {
        return;
      }
      var images := GenerateModelImages(clothImage.value, clothingCategory, numImages, modelPose,
                                        backgroundStyle, modelGender, Indian, send);
      FinishGenerate(images);
    }
  }
}
