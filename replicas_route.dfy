/** The replica endpoints: listing the provider's replicas and creating one. */
module ReplicasRoute {
  import opened Common
  import opened Tavus

  /** The JSON body of a replica creation request. */
  datatype ReplicaBody = ReplicaBody(train_video_url: Field, replica_name: Field)

  const ListFailureMessage := "Failed to fetch replicas"
  const MissingFieldsMessage := "train_video_url and replica_name are required"
  const CreateFailureMessage := "Failed to create replica"

  /** `GET`: the list the client's `getReplicas` returns, or a 500 when it throws. */
  function HandleGet(answer: Result<seq<Replica>>): (r: RouteResponse<seq<Replica>>)
    ensures r.Ok? <==> answer.Success?
    ensures r.Ok? ==> r.value == answer.value
    ensures r.ErrorJson? ==> r == ErrorJson(500, ListFailureMessage)
  {
    match answer
    case Success(replicas) => Ok(replicas)
    case Failure(_) => ErrorJson(500, ListFailureMessage)
  }

  /** A body the handler accepts: both fields are non-empty strings. */
  predicate Accepted(body: ReplicaBody)
    ensures Accepted(body) <==> body.train_video_url.Str? && body.train_video_url.value != ""
                                && body.replica_name.Str? && body.replica_name.value != ""
  {
    Truthy(body.train_video_url) && Truthy(body.replica_name)
  }

  /** What is sent to the provider: the training video and the name, with no callback. */
  function Forwarded(body: ReplicaBody): (data: CreateReplicaData)
    requires Accepted(body)
    ensures data.train_video_url == body.train_video_url.value && data.replica_name == body.replica_name.value
    ensures data.callback_url.None?
  {
    CreateReplicaData(body.train_video_url.value, body.replica_name.value, None)
  }

  /** `POST`: validate, forward, and map any thrown error to a 500. `body` is
      `None` when the request body is not JSON or is `null`, where reading it
      throws; any other body that is not an object reads as all fields
      `Undefined`; `answer` is what
      `createReplica` returns or throws when it is called. */
  function HandlePost(body: Option<ReplicaBody>, answer: Result<Replica>): (h: Handled<CreateReplicaData, Replica>)
    ensures body.None? ==> h == Handled([], ErrorJson(500, CreateFailureMessage))
    ensures body.Some? && !Accepted(body.value) ==> h == Handled([], ErrorJson(400, MissingFieldsMessage))
    ensures body.Some? && Accepted(body.value) ==> h.calls == [Forwarded(body.value)]
    ensures h.response.Ok? <==> body.Some? && Accepted(body.value) && answer.Success?
    ensures h.response.Ok? ==> h.response.value == answer.value
    ensures body.Some? && Accepted(body.value) && answer.Failure? ==> h.response == ErrorJson(500, CreateFailureMessage)
  {
    match body
    case None => Handled([], ErrorJson(500, CreateFailureMessage))
    case Some(b) =>
      if !Truthy(b.train_video_url) || !Truthy(b.replica_name) then Handled([], ErrorJson(400, MissingFieldsMessage))
      else
        var data := Forwarded(b);
        match answer
        case Success(replica) => Handled([data], Ok(replica))
        case Failure(_) => Handled([data], ErrorJson(500, CreateFailureMessage))
  }
}
