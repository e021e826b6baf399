/** The wizard: product details, presenter choice, generation, result.
    Its state is the current step, the product data (with at most five
    images), the selected replica and the generated video. */
module ProductForm {
  import opened Common
  import opened Tavus
  import opened UseTavus

  datatype Step = InputStep | ReplicaStep | GeneratingStep | ResultStep

  /** A picked image file; only its identity matters here. */
  datatype ImageFile = ImageFile(name: string)

  datatype ProductData = ProductData(name: string, description: string, images: seq<ImageFile>)

  const MaxImages := 5
  const DownloadSuffix := "-ugc-video.mp4"
  const EmptyProduct := ProductData("", "", [])

  /** Uploaded files appended to the images, keeping at most the first five. */
  function AddImages(images: seq<ImageFile>, files: seq<ImageFile>): (r: seq<ImageFile>)
    ensures |r| == if |images| + |files| <= MaxImages then |images| + |files| else MaxImages
    ensures r == (images + files)[..|r|]
    ensures |images| <= MaxImages ==> r[..|images|] == images
    ensures |images| >= MaxImages ==> r == images[..MaxImages]
  {
    var all := images + files;
    if |all| <= MaxImages then all else all[..MaxImages]
  }

  /** The elements, numbered from `offset` on, whose position is not `index`. */
  function KeepOthers(images: seq<ImageFile>, index: int, offset: nat): (r: seq<ImageFile>)
    ensures |r| == |images| - (if offset <= index < offset + |images| then 1 else 0)
    ensures forall x :: x in r ==> x in images
  {
    if images == [] then []
    else (if offset == index then [] else [images[0]]) + KeepOthers(images[1..], index, offset + 1)
  }

  /** The filter drops exactly the element at `index` and keeps the rest in order. */
  lemma {:induction false} KeepOthersDropsIndex(images: seq<ImageFile>, index: int, offset: nat)
    ensures KeepOthers(images, index, offset)
         == if offset <= index < offset + |images| then images[..index - offset] + images[index - offset + 1..] else images
  {
    if images != [] {
      KeepOthersDropsIndex(images[1..], index, offset + 1);
      if offset < index < offset + |images| {
        assert images[..index - offset] == [images[0]] + images[1..][..index - offset - 1];
        assert images[index - offset + 1..] == images[1..][index - offset..];
      } else if !(offset <= index < offset + |images|) {
        assert images == [images[0]] + images[1..];
      }
    }
  }

  /** `removeImage(index)`: the list without its element at `index`; an index
      out of range leaves the list as it is. */
  function RemoveImageAt(images: seq<ImageFile>, index: int): (r: seq<ImageFile>)
    ensures 0 <= index < |images| ==> r == images[..index] + images[index + 1..]
    ensures !(0 <= index < |images|) ==> r == images
    ensures |r| <= |images|
  {
    KeepOthersDropsIndex(images, index, 0);
    KeepOthers(images, index, 0)
  }

  /** The argument the wizard passes to `generateVideo`: no style. */
  function GenerationRequest(replica: Replica, product: ProductData): (data: GenerateRequest)
    ensures data.replica_id == replica.replica_id && data.style.None?
    ensures data.product_name == product.name && data.product_description == product.description
  {
    GenerateRequest(replica.replica_id, product.name, product.description, None)
  }

  /** The downloaded file's name: the product name followed by the suffix. */
  function DownloadFileName(productName: string): (file: string)
    ensures |file| == |productName| + |DownloadSuffix|
    ensures file[..|productName|] == productName && file[|productName|..] == DownloadSuffix
  {
    productName + DownloadSuffix
  }

  /** What the wizard renders. */
  datatype Screen =
    | InputScreen(canContinue: bool)
    | ReplicaScreen(showGenerate: bool, generateEnabled: bool, error: Option<string>)
    | GeneratingScreen
    | ResultScreen(video: Video)
    | Blank

  class Form {
    var step: Step
    var productData: ProductData
    var selectedReplica: Option<Replica>
    var generatedVideo: Option<Video>
    const tavus: TavusHook

    /** At most five images, and the result step always has a video to show. */
    ghost predicate Valid()
      reads this
    {
      |productData.images| <= MaxImages && (step == ResultStep ==> generatedVideo.Some?)
    }

    constructor (hook: TavusHook)
      ensures Valid() && tavus == hook
      ensures step == InputStep && productData == EmptyProduct && selectedReplica.None? && generatedVideo.None?
    {
      step := InputStep;
      productData := EmptyProduct;
      selectedReplica := None;
      generatedVideo := None;
      tavus := hook;
    }

    /** The name field's `onChange`. */
    method SetName(name: string)
      requires Valid()
      modifies this`productData
      ensures Valid() && productData == old(productData).(name := name)
    {
      productData := productData.(name := name);
    }

    /** The description field's `onChange`. */
    method SetDescription(description: string)
      requires Valid()
      modifies this`productData
      ensures Valid() && productData == old(productData).(description := description)
    {
      productData := productData.(description := description);
    }

    /** `handleImageUpload`. */
    method ImageUpload(files: seq<ImageFile>)
      requires Valid()
      modifies this`productData
      ensures Valid()
      ensures productData == old(productData).(images := AddImages(old(productData.images), files))
      ensures productData.images[..|old(productData.images)|] == old(productData.images)
    {
      productData := productData.(images := AddImages(productData.images, files));
    }

    /** `removeImage`. */
    method RemoveImage(index: int)
      requires Valid()
      modifies this`productData
      ensures Valid()
      ensures productData == old(productData).(images := RemoveImageAt(old(productData.images), index))
    {
      productData := productData.(images := RemoveImageAt(productData.images, index));
    }

    /** `handleProductSubmit`: on to presenter selection only when both the
        name and the description are filled in. */
    method ProductSubmit()
      requires Valid()
      modifies this`step
      ensures Valid()
      ensures old(productData.name) != "" && old(productData.description) != "" ==> step == ReplicaStep
      ensures old(productData.name) == "" || old(productData.description) == "" ==> step == old(step)
    {
      if productData.name != "" && productData.description != "" {
        step := ReplicaStep;
      }
    }

    /** `handleReplicaSelect`. */
    method ReplicaSelect(replica: Replica)
      requires Valid()
      modifies this`selectedReplica
      ensures Valid() && selectedReplica == Some(replica)
    {
      selectedReplica := Some(replica);
    }

    /** The "Back to Product Details" button: product data and selection are kept. */
    method Back()
      requires Valid()
      modifies this`step
      ensures Valid() && step == InputStep
    {
      step := InputStep;
    }

    /** `resetForm`. */
    method Reset()
      modifies this`step, this`productData, this`selectedReplica, this`generatedVideo
      ensures Valid()
      ensures step == InputStep && productData == EmptyProduct && selectedReplica.None? && generatedVideo.None?
    {
      step := InputStep;
      productData := EmptyProduct;
      selectedReplica := None;
      generatedVideo := None;
    }

    /** The synchronous part of `handleGenerateVideo`: nothing happens without
        a selected replica; otherwise the wizard shows the generating step. */
    method StartGeneration() returns (started: bool)
      requires Valid()
      modifies this`step
      ensures Valid()
      ensures started <==> selectedReplica.Some?
      ensures started ==> step == GeneratingStep
      ensures !started ==> step == old(step)
    {
      if selectedReplica.None? {
        return false;
      }
      step := GeneratingStep;
      started := true;
    }

    /** The part of `handleGenerateVideo` after `generateVideo` settles: a
        video moves on to the result; a thrown error goes back to presenter
        selection and leaves the previous video in place. */
    method FinishGeneration(outcome: Result<Video>)
      requires Valid()
      modifies this`step, this`generatedVideo
      ensures Valid()
      ensures outcome.Success? ==> step == ResultStep && generatedVideo == Some(outcome.value)
      ensures outcome.Failure? ==> step == ReplicaStep && generatedVideo == old(generatedVideo)
    {
      match outcome
      case Success(video) =>
        generatedVideo := Some(video);
        step := ResultStep;
      case Failure(_) =>
        step := ReplicaStep;
    }

    /** `handleGenerateVideo` as a whole, over the endpoints' answers `net`.
        Product data and the selected replica are never changed. */
    method HandleGenerateVideo(net: Network) returns (sent: seq<Sent>)
      requires Valid()
      modifies this, tavus
      ensures Valid()
      ensures productData == old(productData) && selectedReplica == old(selectedReplica)
      ensures old(selectedReplica).None? ==>
        step == old(step) && generatedVideo == old(generatedVideo) && sent == []
        && tavus.loading == old(tavus.loading) && tavus.error == old(tavus.error)
      ensures old(selectedReplica).Some? ==>
        var run := Pipeline(GenerationRequest(old(selectedReplica).value, old(productData)), net);
        && |sent| == |run.calls|
        && (forall i :: 0 <= i < |sent| ==> sent[i] == Sent(run.calls[i], true, None))
        && !tavus.loading
        && (run.result.Success? ==> step == ResultStep && generatedVideo == Some(run.result.value) && tavus.error.None?)
        && (run.result.Failure? ==> step == ReplicaStep && generatedVideo == old(generatedVideo)
                                    && tavus.error == Some(run.result.error))
    {
      var started := StartGeneration();
      if !started {
        return [];
      }
      var outcome;
      outcome, sent := tavus.GenerateVideo(GenerationRequest(selectedReplica.value, productData), net);
      FinishGeneration(outcome);
    }

    /** `downloadVideo`: nothing to download without a video that has a
        hosted URL; otherwise the file name to save under. */
    function DownloadName(): (file: Option<string>)
      reads this
      ensures file.Some? <==> generatedVideo.Some? && generatedVideo.value.hosted_url != ""
      ensures file.Some? ==> file.value == DownloadFileName(productData.name)
    {
      if generatedVideo.None? || generatedVideo.value.hosted_url == "" then None
      else Some(DownloadFileName(productData.name))
    }

    /** The screen rendered for the current state. */
    function Render(): (s: Screen)
      reads this, tavus
      ensures s.InputScreen? <==> step == InputStep
      ensures s.ReplicaScreen? <==> step == ReplicaStep
      ensures s == GeneratingScreen <==> step == GeneratingStep
      ensures step == ResultStep && generatedVideo.Some? ==> s == ResultScreen(generatedVideo.value)
      ensures s == Blank <==> step == ResultStep && generatedVideo.None?
      ensures Valid() ==> s != Blank
      ensures s.InputScreen? ==> (s.canContinue <==> productData.name != "" && productData.description != "")
      ensures s.ReplicaScreen? ==> s.showGenerate == selectedReplica.Some? && s.error == tavus.error
      ensures s.ReplicaScreen? ==> (s.generateEnabled <==> selectedReplica.Some? && !tavus.loading)
    {
      match step
      case InputStep => InputScreen(productData.name != "" && productData.description != "")
      case ReplicaStep => ReplicaScreen(selectedReplica.Some?, selectedReplica.Some? && !tavus.loading, tavus.error)
      case GeneratingStep => GeneratingScreen
      case ResultStep => if generatedVideo.Some? then ResultScreen(generatedVideo.value) else Blank
    }
  }
}
