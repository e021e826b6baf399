/** The video endpoint: it validates the request, fills in the video name
    and forwards the job to the provider. */
module VideosRoute {
  import opened Common
  import opened Tavus

  /** The JSON body of a video request. */
  datatype VideoBody = VideoBody(replica_id: Field, script: Field, video_name: Field, product_name: Field, product_description: Field)

  const MissingFieldsMessage := "replica_id and script are required"
  const FailureMessage := "Failed to generate video"
  const NameSuffix := " UGC Video"

  /** The video name: the one given when it is a non-empty string, otherwise
      the product name's text followed by ` UGC Video`. */
  function VideoName(body: VideoBody): (name: string)
    ensures Truthy(body.video_name) ==> name == body.video_name.value
    ensures !Truthy(body.video_name) ==> name == TemplateText(body.product_name) + NameSuffix
  {
    if Truthy(body.video_name) then body.video_name.value else TemplateText(body.product_name) + NameSuffix
  }

  /** A body the handler accepts. */
  predicate Accepted(body: VideoBody)
    ensures Accepted(body) <==> body.replica_id.Str? && body.replica_id.value != "" && body.script.Str? && body.script.value != ""
  {
    Truthy(body.replica_id) && Truthy(body.script)
  }

  /** What is sent to the provider for an accepted body: the replica, the
      script and the name, with no callback. */
  function Forwarded(body: VideoBody): (data: GenerateVideoData)
    requires Accepted(body)
    ensures data.replica_id == body.replica_id.value && data.script == body.script.value
    ensures data.video_name == VideoName(body) && data.callback_url.None?
  {
    GenerateVideoData(body.replica_id.value, body.script.value, VideoName(body), None)
  }

  /** `POST` of the video endpoint. `body` is `None` when the request body is
      not JSON or is `null`, where reading it throws; any other body that is
      not an object reads as all fields `Undefined`; `answer` is what the provider's `generateVideo`
      returns or throws when it is called. */
  function HandlePost(body: Option<VideoBody>, answer: Result<Video>): (h: Handled<GenerateVideoData, Video>)
    ensures body.None? ==> h == Handled([], ErrorJson(500, FailureMessage))
    ensures body.Some? && !Accepted(body.value) ==> h == Handled([], ErrorJson(400, MissingFieldsMessage))
    ensures body.Some? && Accepted(body.value) ==> h.calls == [Forwarded(body.value)]
    ensures h.response.Ok? <==> body.Some? && Accepted(body.value) && answer.Success?
    ensures h.response.Ok? ==> h.response.value == answer.value
    ensures body.Some? && Accepted(body.value) && answer.Failure? ==> h.response == ErrorJson(500, FailureMessage)
  {
    match body
    case None => Handled([], ErrorJson(500, FailureMessage))
    case Some(b) =>
      if !Truthy(b.replica_id) || !Truthy(b.script) then Handled([], ErrorJson(400, MissingFieldsMessage))
      else
        var data := Forwarded(b);
        match answer
        case Success(video) => Handled([data], Ok(video))
        case Failure(_) => Handled([data], ErrorJson(500, FailureMessage))
  }

  /** The product description plays no part in what the handler does. */
  lemma DescriptionIsIgnored(body: VideoBody, description: Field, answer: Result<Video>)
    ensures HandlePost(Some(body), answer) == HandlePost(Some(body.(product_description := description)), answer)
  {
  }

  /** The product name matters only when no usable video name is given. */
  lemma ProductNameOnlyNamesTheVideo(body: VideoBody, productName: Field, answer: Result<Video>)
    requires Truthy(body.video_name)
    ensures HandlePost(Some(body), answer) == HandlePost(Some(body.(product_name := productName)), answer)
  {
  }

  /** The provider is called at most once, and only for an accepted body. */
  lemma AtMostOneProviderCall(body: Option<VideoBody>, answer: Result<Video>)
    ensures |HandlePost(body, answer).calls| <= 1
    ensures |HandlePost(body, answer).calls| == 1 <==> body.Some? && Accepted(body.value)
  {
  }
}
