/** The client-side hook: the three-stage generation pipeline (script,
    job submission, poll) over the wizard's own endpoints, with its
    `loading` and `error` state, and the replica list fetch. */
module UseTavus {
  import opened Common
  import opened Tavus
  import ScriptRoute
  import VideosRoute

  /** The argument of `generateVideo`. */
  datatype GenerateRequest = GenerateRequest(replica_id: string, product_name: string, product_description: string, style: Option<string>)

  /** A request the hook sends to one of the wizard's endpoints. */
  datatype ApiCall =
    | ScriptCall(scriptBody: ScriptRoute.ScriptBody)
    | VideoCall(videoBody: VideosRoute.VideoBody)
    | PollCall(path: string)

  /** How the endpoints answer: each reply is a function of the request sent.
      A script reply's JSON is its `script` member. */
  datatype Network = Network(
    script: ScriptRoute.ScriptBody -> HttpResponse<Field>,
    create: VideosRoute.VideoBody -> HttpResponse<Video>,
    poll: string -> HttpResponse<Video>)

  const ScriptFailure := "Failed to generate script"
  const VideoFailure := "Failed to generate video"
  const PollFailure := "Failed to complete video generation"
  const ReplicasFailure := "Failed to fetch replicas"
  const DefaultStyle := "enthusiastic"
  const PollPrefix := "/api/tavus/videos/"
  const PollSuffix := "/poll"

  /** The message thrown by stage 1, 2 or 3. */
  function StageFailure(stage: nat): (message: string)
    requires 1 <= stage <= 3
  {
    if stage == 1 then ScriptFailure else if stage == 2 then VideoFailure else PollFailure
  }

  /** The three stage messages are distinct, so the message names the stage that failed. */
  lemma StageFailuresDistinct(i: nat, j: nat)
    requires 1 <= i <= 3 && 1 <= j <= 3 && StageFailure(i) == StageFailure(j)
    ensures i == j
  {
  }

  /** The style sent for the script: the given one unless it is missing or
      empty, otherwise `enthusiastic`. */
  function StyleOrDefault(style: Option<string>): (s: string)
    ensures style.Some? && style.value != "" ==> s == style.value
    ensures style.None? || style.value == "" ==> s == DefaultStyle
  {
    if style.Some? && style.value != "" then style.value else DefaultStyle
  }

  /** The body of stage 1. */
  function ScriptRequest(data: GenerateRequest): (body: ScriptRoute.ScriptBody)
    ensures body.product_name == Str(data.product_name) && body.product_description == Str(data.product_description)
    ensures body.style == Str(StyleOrDefault(data.style))
  {
    ScriptRoute.ScriptBody(Str(data.product_name), Str(data.product_description), Str(StyleOrDefault(data.style)))
  }

  /** The body of stage 2, carrying the script stage 1 returned. */
  function VideoRequest(data: GenerateRequest, script: Field): (body: VideosRoute.VideoBody)
    ensures body.replica_id == Str(data.replica_id) && body.script == script
    ensures body.video_name == Str(data.product_name + VideosRoute.NameSuffix)
    ensures body.product_name == Str(data.product_name) && body.product_description == Str(data.product_description)
  {
    VideosRoute.VideoBody(Str(data.replica_id), script, Str(data.product_name + VideosRoute.NameSuffix),
                          Str(data.product_name), Str(data.product_description))
  }

  /** The endpoint of stage 3 for the job created in stage 2. */
  function PollPath(videoId: string): (path: string)
    ensures |path| == |PollPrefix| + |videoId| + |PollSuffix|
    ensures path[..|PollPrefix|] == PollPrefix
    ensures path[|PollPrefix|..|PollPrefix| + |videoId|] == videoId
    ensures path[|PollPrefix| + |videoId|..] == PollSuffix
  {
    PollPrefix + videoId + PollSuffix
  }

  /** What one run of the pipeline comes to: the requests sent, in order, and
      the video returned or the message thrown. */
  datatype Run = Run(calls: seq<ApiCall>, result: Result<Video>)

  /** The pipeline: script, then job submission, then poll, each attempted
      only when every earlier stage answered ok; the first stage that does
      not answer ok ends the run with that stage's message. */
  function Pipeline(data: GenerateRequest, net: Network): (run: Run)
    ensures 1 <= |run.calls| <= 3 && run.calls[0] == ScriptCall(ScriptRequest(data))
    ensures var scripted := net.script(ScriptRequest(data));
      && (|run.calls| >= 2 <==> scripted.ok)
      && (|run.calls| >= 2 ==> run.calls[1] == VideoCall(VideoRequest(data, scripted.json)))
    ensures var scripted := net.script(ScriptRequest(data));
      var created := net.create(VideoRequest(data, scripted.json));
      && (|run.calls| == 3 <==> scripted.ok && created.ok)
      && (|run.calls| == 3 ==> run.calls[2] == PollCall(PollPath(created.json.video_id)))
    ensures run.result.Failure? ==> run.result.error == StageFailure(|run.calls|)
    ensures run.result.Success? <==> |run.calls| == 3 && net.poll(run.calls[2].path).ok
    ensures run.result.Success? ==> run.result.value == net.poll(run.calls[2].path).json
  {
    var scriptBody := ScriptRequest(data);
    var scripted := net.script(scriptBody);
    if !scripted.ok then Run([ScriptCall(scriptBody)], Failure(ScriptFailure))
    else
      var videoBody := VideoRequest(data, scripted.json);
      var created := net.create(videoBody);
      if !created.ok then Run([ScriptCall(scriptBody), VideoCall(videoBody)], Failure(VideoFailure))
      else
        var path := PollPath(created.json.video_id);
        var polled := net.poll(path);
        var calls := [ScriptCall(scriptBody), VideoCall(videoBody), PollCall(path)];
        if !polled.ok then Run(calls, Failure(PollFailure)) else Run(calls, Success(polled.json))
  }

  /** A job that ends with status `error` is handed back as a result, not thrown. */
  lemma FailedJobIsReturned(data: GenerateRequest, net: Network)
    requires var run := Pipeline(data, net); |run.calls| == 3 && net.poll(run.calls[2].path).ok
    requires net.poll(Pipeline(data, net).calls[2].path).json.status == Error
    ensures Pipeline(data, net).result.Success? && Pipeline(data, net).result.value.status == Error
  {
  }

  /** The reply the script endpoint's answer becomes: an accepted request
      carries the script, a rejected one has no `script` member. */
  function ScriptReply(r: RouteResponse<string>): (reply: HttpResponse<Field>)
    ensures reply.ok <==> r.Ok?
    ensures reply.ok ==> reply.json == Str(r.value)
  {
    match r
    case Ok(script) => HttpResponse(true, 200, "", Str(script))
    case ErrorJson(status, message) => HttpResponse(false, status, message, Undefined)
  }

  /** The script stage is answered by the script endpoint with phrases `h`, `t`, `c`. */
  ghost predicate ServedByScriptRoute(net: Network, h: ScriptRoute.Pick, t: ScriptRoute.Pick, c: ScriptRoute.Pick)
  {
    forall b :: net.script(b) == ScriptReply(ScriptRoute.HandlePost(Some(b), h, t, c))
  }

  /** Against the script endpoint, an empty product name or description ends
      the run at stage 1 after one request; otherwise the job submission
      carries the generated script. */
  lemma ScriptStageAgainstEndpoint(data: GenerateRequest, net: Network, h: ScriptRoute.Pick, t: ScriptRoute.Pick, c: ScriptRoute.Pick)
    requires ServedByScriptRoute(net, h, t, c)
    ensures data.product_name == "" || data.product_description == "" ==>
      Pipeline(data, net) == Run([ScriptCall(ScriptRequest(data))], Failure(ScriptFailure))
    ensures data.product_name != "" && data.product_description != "" ==>
      var script := ScriptRoute.GenerateUGCScript(data.product_name, data.product_description, Str(StyleOrDefault(data.style)), h, t, c);
      |Pipeline(data, net).calls| >= 2 && Pipeline(data, net).calls[1] == VideoCall(VideoRequest(data, Str(script)))
  {
    var body := ScriptRequest(data);
    assert net.script(body) == ScriptReply(ScriptRoute.HandlePost(Some(body), h, t, c));
  }

  /** The videos endpoint names the job exactly as the hook asked, whatever the script. */
  lemma HookNamesTheVideo(data: GenerateRequest, script: Field)
    ensures VideosRoute.VideoName(VideoRequest(data, script)) == data.product_name + VideosRoute.NameSuffix
  {
  }

  /** The hook's state as it stood when a request was sent. */
  datatype Sent = Sent(call: ApiCall, loading: bool, error: Option<string>)

  class TavusHook {
    var loading: bool
    var error: Option<string>

    constructor ()
      ensures !loading && error == None
    {
      loading := false;
      error := None;
    }

    /** `generateVideo`: set `loading` and clear `error`, run the three
        stages, record a failure's message in `error`, and clear `loading`
        whatever the outcome. `sent` lists the requests with the hook's state
        at the moment each was sent. */
    method GenerateVideo(data: GenerateRequest, net: Network) returns (result: Result<Video>, sent: seq<Sent>)
      modifies this
      ensures result == Pipeline(data, net).result
      ensures |sent| == |Pipeline(data, net).calls|
      ensures forall i :: 0 <= i < |sent| ==> sent[i] == Sent(Pipeline(data, net).calls[i], true, None)
      ensures !loading
      ensures error == if result.Failure? then Some(result.error) else None
    {
      loading := true;
      error := None;
      var scriptBody := ScriptRequest(data);
      sent := [Sent(ScriptCall(scriptBody), loading, error)];
      var scripted := net.script(scriptBody);
      if !scripted.ok {
        result := Failure(ScriptFailure);
      } else {
        var videoBody := VideoRequest(data, scripted.json);
        sent := sent + [Sent(VideoCall(videoBody), loading, error)];
        var created := net.create(videoBody);
        if !created.ok {
          result := Failure(VideoFailure);
        } else {
          var path := PollPath(created.json.video_id);
          sent := sent + [Sent(PollCall(path), loading, error)];
          var polled := net.poll(path);
          if !polled.ok {
            result := Failure(PollFailure);
          } else {
            result := Success(polled.json);
          }
        }
      }
      if result.Failure? {
        error := Some(result.error);
      }
      loading := false;
    }

    /** `fetchReplicas`: the list the endpoint returns; a reply that is not ok
        sets `error` and throws. `loading` is not touched. */
    method FetchReplicas(reply: HttpResponse<seq<Replica>>) returns (r: Result<seq<Replica>>)
      modifies this`error
      ensures r.Success? <==> reply.ok
      ensures r.Success? ==> r.value == reply.json && error == old(error)
      ensures r.Failure? ==> r.error == ReplicasFailure && error == Some(ReplicasFailure)
    {
      if !reply.ok {
        error := Some(ReplicasFailure);
        return Failure(ReplicasFailure);
      }
      r := Success(reply.json);
    }
  }
}
