/** The authenticated client of the remote video-generation provider:
    its records, how it builds and answers requests, and the bounded
    polling of a video job until it reaches a terminal status. */
module Tavus {
  import opened Common

  datatype ReplicaStatus = Training | ReplicaReady | ReplicaError

  /** A presenter ("replica") registered with the provider. */
  datatype Replica = Replica(replica_id: string, replica_name: string, status: ReplicaStatus, created_at: string)

  datatype VideoStatus = Queued | Generating | Ready | Deleted | Error

  /** A video generation job as the provider reports it. */
  datatype Video = Video(
    video_id: string,
    video_name: string,
    status: VideoStatus,
    hosted_url: string,
    download_url: Option<string>,
    created_at: string)

  /** What `createReplica` sends. */
  datatype CreateReplicaData = CreateReplicaData(train_video_url: string, replica_name: string, callback_url: Option<string>)

  /** What `generateVideo` sends. */
  datatype GenerateVideoData = GenerateVideoData(replica_id: string, script: string, video_name: string, callback_url: Option<string>)

  /** The JSON envelope of the replica list; `replicas` may be missing. */
  datatype ReplicaList = ReplicaList(replicas: Option<seq<Replica>>)

  datatype Method = Get | Post

  /** The JSON body a request carries, before serialisation. */
  datatype Payload = NoPayload | ReplicaPayload(replica: CreateReplicaData) | VideoPayload(video: GenerateVideoData)

  /** The options a caller passes to `request`. */
  datatype RequestInit = RequestInit(verb: Method, payload: Payload, headers: map<string, string>)

  /** A request as it is handed to `fetch`. */
  datatype HttpRequest = HttpRequest(url: string, verb: Method, payload: Payload, headers: map<string, string>)

  const BaseUrl := "https://tavusapi.com/v2"
  const MissingKeyMessage := "TAVUS_API_KEY is required"
  const TimeoutMessage := "Video generation timeout"
  const ApiErrorPrefix := "Tavus API Error: "
  /** The attempt budget `pollVideoStatus` uses when none is given. */
  const DefaultMaxAttempts := 60

  /** The message of the Error thrown for a response that is not ok. */
  function ApiErrorMessage(status: nat, body: string): (m: string)
    ensures m == ApiErrorPrefix + DecimalString(status) + " - " + body
    ensures |ApiErrorPrefix| <= |m| && m[..|ApiErrorPrefix|] == ApiErrorPrefix
    ensures Occurs(body, m)
  {
    var m := ApiErrorPrefix + DecimalString(status) + " - " + body;
    assert OccursAt(body, m, |m| - |body|);
    m
  }

  /** `digits + " - " + rest` splits back into its digits and its rest. */
  lemma {:induction false} SplitAtSeparator(d1: string, b1: string, d2: string, b2: string)
    requires AllDigits(d1) && AllDigits(d2)
    requires d1 + " - " + b1 == d2 + " - " + b2
    ensures d1 == d2 && b1 == b2
  {
    var t := d1 + " - " + b1;
    assert forall k :: 0 <= k < |d1| ==> t[k] == d1[k];
    assert forall k :: 0 <= k < |d2| ==> t[k] == d2[k];
    assert t[|d1|] == ' ' && t[|d2|] == ' ';
    assert |d1| == |d2|;
    assert d1 == t[..|d1|] == d2;
    assert b1 == t[|d1| + 3..] == b2;
  }

  /** Two error messages are equal only when they report the same status
      and the same body: the message loses nothing. */
  lemma ApiErrorMessageInjective(s1: nat, b1: string, s2: nat, b2: string)
    requires ApiErrorMessage(s1, b1) == ApiErrorMessage(s2, b2)
    ensures s1 == s2 && b1 == b2
  {
    var d1, d2 := DecimalString(s1), DecimalString(s2);
    var m1, m2 := ApiErrorMessage(s1, b1), ApiErrorMessage(s2, b2);
    var n := |ApiErrorPrefix|;
    assert m1[n..] == d1 + " - " + b1;
    assert m2[n..] == d2 + " - " + b2;
    SplitAtSeparator(d1, b1, d2, b2);
    DecimalStringInjective(s1, s2);
  }

  /** A failed response is never mistaken for the polling timeout. */
  lemma ApiErrorIsNotTimeout(status: nat, body: string)
    ensures ApiErrorMessage(status, body) != TimeoutMessage
  {
    var m := ApiErrorMessage(status, body);
    assert m[0] == 'T' && TimeoutMessage[0] == 'V';
  }

  /** The headers of every request: the API key and the JSON content type,
      each of which a header the caller supplies under the same name replaces. */
  function MergeHeaders(apiKey: string, caller: map<string, string>): (h: map<string, string>)
    ensures h.Keys == caller.Keys + {"x-api-key", "Content-Type"}
    ensures forall k :: k in caller ==> h[k] == caller[k]
    ensures "x-api-key" !in caller ==> h["x-api-key"] == apiKey
    ensures "Content-Type" !in caller ==> h["Content-Type"] == "application/json"
  {
    map["x-api-key" := apiKey, "Content-Type" := "application/json"] + caller
  }

  /** The request carries exactly the credential and the JSON content type. */
  predicate Authenticated(q: HttpRequest, apiKey: string)
  {
    q.headers == map["x-api-key" := apiKey, "Content-Type" := "application/json"]
  }

  /** How `request` turns a response into a value or a thrown Error. */
  function Receive<T>(reply: HttpResponse<T>): (r: Result<T>)
    ensures r.Success? <==> reply.ok
    ensures r.Success? ==> r.value == reply.json
    ensures r.Failure? ==> r.error == ApiErrorMessage(reply.status, reply.text)
  {
    if reply.ok then Success(reply.json) else Failure(ApiErrorMessage(reply.status, reply.text))
  }

  /** `getReplicas`: the `replicas` member of the answer, the empty list when it is missing. */
  function GetReplicas(reply: HttpResponse<ReplicaList>): (r: Result<seq<Replica>>)
    ensures r.Success? <==> reply.ok
    ensures reply.ok && reply.json.replicas.Some? ==> r.value == reply.json.replicas.value
    ensures reply.ok && reply.json.replicas.None? ==> r.value == []
    ensures !reply.ok ==> r.error == ApiErrorMessage(reply.status, reply.text)
  {
    match Receive(reply)
    case Failure(e) => Failure(e)
    case Success(envelope) => Success(if envelope.replicas.Some? then envelope.replicas.value else [])
  }

  /** A status at which polling stops. */
  predicate Terminal(s: VideoStatus)
    ensures Terminal(s) <==> !(s == Queued || s == Generating || s == Deleted)
  {
    s == Ready || s == Error
  }

  /** A poll answer after which the loop goes on to the next attempt. */
  predicate Continues(reply: HttpResponse<Video>)
  {
    reply.ok && !Terminal(reply.json.status)
  }

  /** What a poll comes to: its result and the number of `getVideo` calls made. */
  datatype PollRun = PollRun(result: Result<Video>, attempts: nat)

  /** The poll loop from attempt `i` on, where `replies(j)` is the provider's
      answer to the j-th status fetch. */
  function PollFrom(replies: nat -> HttpResponse<Video>, maxAttempts: int, i: nat): (p: PollRun)
    ensures p.attempts <= if i < maxAttempts then maxAttempts - i else 0
    ensures p.result.Success? ==> Terminal(p.result.value.status)
    decreases if i < maxAttempts then maxAttempts - i else 0
  {
    if maxAttempts <= i then PollRun(Failure(TimeoutMessage), 0)
    else
      match Receive(replies(i))
      case Failure(e) => PollRun(Failure(e), 1)
      case Success(v) =>
        if Terminal(v.status) then PollRun(Success(v), 1)
        else
          var rest := PollFrom(replies, maxAttempts, i + 1);
          PollRun(rest.result, rest.attempts + 1)
  }

  /** Every fetch before the last one made reported a status that is not terminal. */
  lemma {:induction false} PollContinuesBeforeLast(replies: nat -> HttpResponse<Video>, maxAttempts: int, i: nat)
    ensures var p := PollFrom(replies, maxAttempts, i);
      forall j :: i <= j < i + p.attempts - 1 ==> Continues(replies(j))
    decreases if i < maxAttempts then maxAttempts - i else 0
  {
    if i < maxAttempts && Continues(replies(i)) {
      PollContinuesBeforeLast(replies, maxAttempts, i + 1);
    }
  }

  /** A returned video is the answer of the last fetch made, which is the
      first one whose status is ready or error. */
  lemma {:induction false} PollReturnsFirstTerminal(replies: nat -> HttpResponse<Video>, maxAttempts: int, i: nat)
    ensures var p := PollFrom(replies, maxAttempts, i);
      p.result.Success? ==>
        && p.attempts >= 1
        && i + p.attempts - 1 < maxAttempts
        && replies(i + p.attempts - 1).ok
        && replies(i + p.attempts - 1).json == p.result.value
        && Terminal(p.result.value.status)
        && (forall j :: i <= j < i + p.attempts - 1 ==> Continues(replies(j)))
    decreases if i < maxAttempts then maxAttempts - i else 0
  {
    PollContinuesBeforeLast(replies, maxAttempts, i);
    if i < maxAttempts && Continues(replies(i)) {
      PollReturnsFirstTerminal(replies, maxAttempts, i + 1);
    }
  }

  /** A response that is not ok ends the loop with that response's error. */
  lemma {:induction false} PollPropagatesApiError(replies: nat -> HttpResponse<Video>, maxAttempts: int, i: nat)
    ensures var p := PollFrom(replies, maxAttempts, i);
      p.result.Failure? && p.result.error != TimeoutMessage ==>
        && p.attempts >= 1
        && i + p.attempts - 1 < maxAttempts
        && !replies(i + p.attempts - 1).ok
        && p.result.error == ApiErrorMessage(replies(i + p.attempts - 1).status, replies(i + p.attempts - 1).text)
    decreases if i < maxAttempts then maxAttempts - i else 0
  {
    if i < maxAttempts && Continues(replies(i)) {
      PollPropagatesApiError(replies, maxAttempts, i + 1);
    }
  }

  /** The poll times out exactly when every fetch of the budget answered ok
      with a status that is not terminal, and it then used the whole budget. */
  lemma {:induction false} PollTimesOutIffNoTerminal(replies: nat -> HttpResponse<Video>, maxAttempts: int, i: nat)
    ensures var p := PollFrom(replies, maxAttempts, i);
      p.result == Failure(TimeoutMessage) <==> forall j :: i <= j < maxAttempts ==> Continues(replies(j))
    ensures var p := PollFrom(replies, maxAttempts, i);
      p.result == Failure(TimeoutMessage) ==> p.attempts == if i < maxAttempts then maxAttempts - i else 0
    decreases if i < maxAttempts then maxAttempts - i else 0
  {
    if i < maxAttempts {
      var reply := replies(i);
      if Continues(reply) {
        PollTimesOutIffNoTerminal(replies, maxAttempts, i + 1);
      } else if !reply.ok {
        ApiErrorIsNotTimeout(reply.status, reply.text);
      }
    }
  }

  /** `queued`, `generating` and `deleted` never end the loop: such an answer
      costs one attempt and polling goes on. */
  lemma NonTerminalStatusContinues(replies: nat -> HttpResponse<Video>, maxAttempts: int, i: nat)
    requires i < maxAttempts && replies(i).ok
    requires replies(i).json.status == Queued || replies(i).json.status == Generating || replies(i).json.status == Deleted
    ensures var p, rest := PollFrom(replies, maxAttempts, i), PollFrom(replies, maxAttempts, i + 1);
      p.result == rest.result && p.attempts == rest.attempts + 1
  {
  }

  class TavusAPI {
    const apiKey: string
    const baseUrl: string

    constructor (key: string)
      requires key != ""
      ensures apiKey == key && baseUrl == BaseUrl
    {
      apiKey := key;
      baseUrl := BaseUrl;
    }

    /** The module-level construction: it fails when the key from the
        environment is missing or empty, and otherwise holds that key. */
    static method Create(environmentKey: Option<string>) returns (r: Result<TavusAPI>)
      ensures r.Failure? <==> environmentKey.None? || environmentKey.value == ""
      ensures r.Failure? ==> r.error == MissingKeyMessage
      ensures r.Success? ==> fresh(r.value) && r.value.apiKey == environmentKey.value && r.value.baseUrl == BaseUrl
    {
      if environmentKey.None? || environmentKey.value == "" {
        return Failure(MissingKeyMessage);
      }
      var client := new TavusAPI(environmentKey.value);
      r := Success(client);
    }

    /** The request `request(endpoint, options)` hands to `fetch`. */
    function Prepare(endpoint: string, options: RequestInit): (q: HttpRequest)
      ensures q.url == baseUrl + endpoint
      ensures q.verb == options.verb && q.payload == options.payload
      ensures options.headers == map[] ==> Authenticated(q, apiKey)
    {
      HttpRequest(baseUrl + endpoint, options.verb, options.payload, MergeHeaders(apiKey, options.headers))
    }

    function ReplicasRequest(): (q: HttpRequest)
      ensures q.url == baseUrl + "/replicas" && q.verb == Get && q.payload == NoPayload
      ensures Authenticated(q, apiKey)
    {
      Prepare("/replicas", RequestInit(Get, NoPayload, map[]))
    }

    function CreateReplicaRequest(data: CreateReplicaData): (q: HttpRequest)
      ensures q.url == baseUrl + "/replicas" && q.verb == Post && q.payload == ReplicaPayload(data)
      ensures Authenticated(q, apiKey)
    {
      Prepare("/replicas", RequestInit(Post, ReplicaPayload(data), map[]))
    }

    function GenerateVideoRequest(data: GenerateVideoData): (q: HttpRequest)
      ensures q.url == baseUrl + "/videos" && q.verb == Post && q.payload == VideoPayload(data)
      ensures Authenticated(q, apiKey)
    {
      Prepare("/videos", RequestInit(Post, VideoPayload(data), map[]))
    }

    function GetVideoRequest(videoId: string): (q: HttpRequest)
      ensures q.url == baseUrl + "/videos/" + videoId && q.verb == Get && q.payload == NoPayload
      ensures Authenticated(q, apiKey)
    {
      Prepare("/videos/" + videoId, RequestInit(Get, NoPayload, map[]))
    }

    /** `pollVideoStatus`: fetch the job's status up to `maxAttempts` times and
        return the first video that is ready or failed; a response that is not
        ok ends the loop with its error, and an exhausted budget with a timeout.
        `replies(j)` is the provider's answer to the j-th fetch; `sent` lists
        the fetches made. */
    method PollVideoStatus(videoId: string, maxAttempts: int, replies: nat -> HttpResponse<Video>)
      returns (r: Result<Video>, sent: seq<HttpRequest>)
      ensures PollFrom(replies, maxAttempts, 0) == PollRun(r, |sent|)
      ensures forall q :: q in sent ==> q == GetVideoRequest(videoId)
      ensures maxAttempts <= 0 ==> r == Failure(TimeoutMessage) && sent == []
    {
      sent := [];
      var i: nat := 0;
      while i < maxAttempts
        invariant i == |sent| && (i <= maxAttempts || i == 0)
        invariant forall q :: q in sent ==> q == GetVideoRequest(videoId)
        invariant forall j :: 0 <= j < i ==> Continues(replies(j))
        invariant var rest := PollFrom(replies, maxAttempts, i);
          PollFrom(replies, maxAttempts, 0) == PollRun(rest.result, rest.attempts + i)
        decreases maxAttempts - i
      {
        sent := sent + [GetVideoRequest(videoId)];
        var video := Receive(replies(i));
        if video.Failure? || Terminal(video.value.status) {
          r := video;
          return;
        }
        i := i + 1;
      }
      r := Failure(TimeoutMessage);
    }

    /** `pollVideoStatus` called without a budget, as the poll endpoint does:
        at most sixty status fetches. */
    method PollVideoStatusDefault(videoId: string, replies: nat -> HttpResponse<Video>)
      returns (r: Result<Video>, sent: seq<HttpRequest>)
      ensures PollFrom(replies, DefaultMaxAttempts, 0) == PollRun(r, |sent|)
      ensures |sent| <= DefaultMaxAttempts
      ensures forall q :: q in sent ==> q == GetVideoRequest(videoId)
    {
      r, sent := PollVideoStatus(videoId, DefaultMaxAttempts, replies);
    }
  }
}
