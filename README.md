# UGC video wizard — a Dafny model

This project models the decision logic of a small Next.js wizard. The wizard
turns a product's name and description into a short promotional ("UGC") video
presented by an AI replica of a remote video-generation provider (Tavus).

The model covers:

- **The provider client** (`lib/tavus.ts`, module `Tavus`):
  - the constructor's API-key check;
  - the header merge every request goes through;
  - the error message of a response that is not ok;
  - the `replicas` envelope default of `getReplicas`;
  - the bounded status poll `pollVideoStatus`. This is a class method with a
    counted loop, proved against a recursive specification `PollFrom`.
- **The three API routes:**
  - script generation (`ScriptRoute`): the template filled from three
    four-entry phrase tables, with the random positions as parameters;
  - video creation (`VideosRoute`);
  - replica list/creation (`ReplicasRoute`).

  Each route validates its request, applies its defaults and maps errors to
  responses. A provider answer is a parameter. A route reports the provider
  calls it made together with its response, so "the provider is not called"
  is a statement about that list.
- **The client hook** (`UseTavus`):
  - the script → job → poll pipeline, which stops at the first stage that does
    not answer ok and reports that stage's message;
  - the `loading`/`error` state around it;
  - the error path of the replica fetch.

  The endpoints' answers are a record of functions (`Network`).
- **The presenter picker** (`ReplicaSelector`):
  - the ready-status filter;
  - the selection highlight;
  - the loading outcome;
  - the render priority.
- **The progress spinner** (`LoadingSpinner`): the cyclic step counter (a
  class with a `Tick`) and the done/active/pending classification.
- **The wizard itself** (`ProductForm`): a class whose fields are the step, the
  product data (at most five images), the selected replica and the generated
  video. Each handler is a method.

`Common` holds the JavaScript-level vocabulary:

- option and result types;
- JSON string fields that may be absent or `null`, with their truthiness and
  their template-literal text;
- HTTP responses;
- decimal rendering of status codes.

Where the wizard's intended behaviour and its code disagree, the model follows
the code:

- A failed generation leaves the previous `generatedVideo` in place and keeps
  the product data and the selected replica.
- The step handlers are not guarded by the current step. For example,
  `handleProductSubmit` only checks the two fields.

## Model

| member | source | states |
|---|---|---|
| Common.TemplateText | app/api/tavus/videos/route.ts:19 | A field interpolated into a template literal reads as its string, `undefined` or `null` |
| Common.DecimalString | lib/tavus.ts:51 | The status code renders as a non-empty string of digits with no leading zero |
| Common.DecimalRoundTrip | lib/tavus.ts:51 | Reading the rendered status back gives the status |
| Common.DecimalStringInjective | lib/tavus.ts:51 | Distinct statuses render differently |
| Tavus.ApiErrorMessage | lib/tavus.ts:49-52 | The message is `Tavus API Error: `, the status in decimal, ` - ` and the response body; so it starts with the prefix and contains the body |
| Tavus.ApiErrorMessageInjective | lib/tavus.ts:51 | Equal messages come from the same status and the same body |
| Tavus.ApiErrorIsNotTimeout | lib/tavus.ts:51 | No API error message equals the timeout message |
| Tavus.MergeHeaders | lib/tavus.ts:42-46 | The request carries `x-api-key` and `Content-Type: application/json` plus every caller header; a caller header of the same name wins |
| Tavus.Receive | lib/tavus.ts:49-54 | An ok response yields its JSON; any other response fails with the API error message of its status and text |
| Tavus.Terminal | lib/tavus.ts:105 | A status ends the poll exactly when it is not `queued`, `generating` or `deleted` |
| Tavus.GetReplicas | lib/tavus.ts:68-71 | The `replicas` member of the answer, the empty list when that member is absent, the API error when the response is not ok |
| Tavus.PollFrom | lib/tavus.ts:101-114 | The poll from attempt `i` makes at most the remaining budget of fetches, and a returned video is `ready` or `error` |
| Tavus.PollContinuesBeforeLast | lib/tavus.ts:102-107 | Every fetch before the last one made answered ok with a non-terminal status |
| Tavus.PollReturnsFirstTerminal | lib/tavus.ts:103-107 | A successful poll returns the video of its last fetch, which is the first terminal answer, and nothing is fetched after it |
| Tavus.PollPropagatesApiError | lib/tavus.ts:103 | A response that is not ok ends the poll with that response's API error |
| Tavus.PollTimesOutIffNoTerminal | lib/tavus.ts:102-113 | The poll times out if and only if all `maxAttempts` fetches answered ok and non-terminal, and then it has used the whole budget |
| Tavus.NonTerminalStatusContinues | lib/tavus.ts:105 | `queued`, `generating` and `deleted` never end the loop |
| Tavus.TavusAPI.constructor | lib/tavus.ts:30-36 | A client holds the given key and the provider's base URL |
| Tavus.TavusAPI.Create | lib/tavus.ts:30-33 | Construction fails with `TAVUS_API_KEY is required` exactly when the key is missing or empty |
| Tavus.TavusAPI.Prepare | lib/tavus.ts:38-47 | The request goes to base URL + endpoint with the caller's method and body; with no caller headers it carries exactly the key and the JSON content type |
| Tavus.TavusAPI.ReplicasRequest | lib/tavus.ts:68-69 | `GET /replicas`, authenticated |
| Tavus.TavusAPI.CreateReplicaRequest | lib/tavus.ts:57-66 | `POST /replicas` with the replica data, authenticated |
| Tavus.TavusAPI.GenerateVideoRequest | lib/tavus.ts:85-95 | `POST /videos` with the video data, authenticated |
| Tavus.TavusAPI.GetVideoRequest | lib/tavus.ts:97-99 | `GET /videos/<id>`, authenticated |
| Tavus.TavusAPI.PollVideoStatus | lib/tavus.ts:101-114 | The loop agrees with `PollFrom` on the result and the number of fetches; every fetch is the status request of the same video; a budget of 0 or less times out without fetching |
| Tavus.TavusAPI.PollVideoStatusDefault | lib/tavus.ts:101-114 | Without a budget the poll uses the default of 60: it agrees with `PollFrom` at 60 attempts and makes at most 60 fetches, all of the same status request |
| ScriptRoute.Fill | app/api/script/generate/route.ts:53 | The exact length of the filled template: its nine parts with nothing added or lost |
| ScriptRoute.FillStartsWithHook | app/api/script/generate/route.ts:53 | The hook opens the script |
| ScriptRoute.FillNamesProduct | app/api/script/generate/route.ts:53 | The product name sits right after the hook and a space |
| ScriptRoute.FillPlacesTransition | app/api/script/generate/route.ts:53 | The transition sits right after the sentence that follows the name |
| ScriptRoute.FillDescribesProduct | app/api/script/generate/route.ts:53 | The description sits right after the transition and a space |
| ScriptRoute.FillEndsWithClosing | app/api/script/generate/route.ts:53 | The closing ends the script |
| ScriptRoute.GenerateUGCScript | app/api/script/generate/route.ts:27-54 | The script is non-empty, starts with the drawn hook, ends with the drawn closing, and contains the product name and the description |
| ScriptRoute.ScriptShape | app/api/script/generate/route.ts:53 | The script is the nine parts concatenated in template order |
| ScriptRoute.StyleIsIgnored | app/api/script/generate/route.ts:27-53 | The style has no effect on the script |
| ScriptRoute.HooksDiffer | app/api/script/generate/route.ts:28-33 | The four hooks are non-empty and start with distinct characters |
| ScriptRoute.TransitionsDiffer | app/api/script/generate/route.ts:35-40 | The four transitions are non-empty and start with distinct characters |
| ScriptRoute.ClosingsDiffer | app/api/script/generate/route.ts:42-47 | The four closings are distinct |
| ScriptRoute.ChoicesAreRecoverable | app/api/script/generate/route.ts:49-53 | For one product, different phrase choices give different scripts |
| ScriptRoute.StyleOrDefault | app/api/script/generate/route.ts:5 | An absent style becomes `enthusiastic`; a present one, even empty or null, is kept |
| ScriptRoute.HandlePost | app/api/script/generate/route.ts:3-25 | Unreadable body: 500 `Failed to generate script`; missing or empty name or description: 400; otherwise the generated script for exactly those inputs |
| ScriptRoute.RejectionIgnoresGenerator | app/api/script/generate/route.ts:7-12 | A rejected request's answer does not depend on the phrase choices |
| ScriptRoute.AcceptedScriptMentionsProduct | app/api/script/generate/route.ts:15-17 | An accepted request's script contains the product name and the description |
| VideosRoute.VideoName | app/api/tavus/videos/route.ts:19 | A non-empty `video_name` is kept; otherwise the product name's text followed by ` UGC Video` |
| VideosRoute.Accepted | app/api/tavus/videos/route.ts:8 | A body passes validation exactly when the replica id and the script are both non-empty strings |
| VideosRoute.Forwarded | app/api/tavus/videos/route.ts:16-20 | The provider receives the replica id, the script and the video name, and no callback URL |
| VideosRoute.HandlePost | app/api/tavus/videos/route.ts:4-30 | Unreadable body: 500 with no provider call; missing field: 400 with no provider call; otherwise one provider call, answered by the provider's video or 500 `Failed to generate video` |
| VideosRoute.DescriptionIsIgnored | app/api/tavus/videos/route.ts:6-20 | The product description has no effect on the handler |
| VideosRoute.ProductNameOnlyNamesTheVideo | app/api/tavus/videos/route.ts:19 | With a `video_name` given, the product name has no effect |
| VideosRoute.AtMostOneProviderCall | app/api/tavus/videos/route.ts:8-20 | The provider is called at most once, and exactly when the request is valid |
| ReplicasRoute.HandleGet | app/api/tavus/replicas/route.ts:4-15 | The provider's list unchanged, or 500 `Failed to fetch replicas` |
| ReplicasRoute.Accepted | app/api/tavus/replicas/route.ts:21 | A body passes validation exactly when the training video URL and the replica name are both non-empty strings |
| ReplicasRoute.Forwarded | app/api/tavus/replicas/route.ts:28-31 | The provider receives exactly the training video URL and the replica name, with no callback URL |
| ReplicasRoute.HandlePost | app/api/tavus/replicas/route.ts:17-41 | Missing field: 400 with no provider call; otherwise one provider call answered by the replica or 500 `Failed to create replica` |
| UseTavus.StyleOrDefault | hooks/use-tavus.ts:25 | A missing or empty style is sent as `enthusiastic` |
| UseTavus.ScriptRequest | hooks/use-tavus.ts:22-26 | Stage 1 sends the product name and description as given, with the defaulted style |
| UseTavus.VideoRequest | hooks/use-tavus.ts:39-45 | Stage 2 sends the replica id, the script stage 1 returned, the name `<product name> UGC Video`, and the product name and description |
| UseTavus.PollPath | hooks/use-tavus.ts:55 | Stage 3 targets `/api/tavus/videos/`, then the job's id, then `/poll` |
| UseTavus.StageFailuresDistinct | hooks/use-tavus.ts:29-61 | The three stage messages are distinct |
| UseTavus.Pipeline | hooks/use-tavus.ts:17-64 | Stages are sent in order script, job, poll, each only when all earlier ones answered ok; the job carries the script returned; the poll targets the created job's id; a failure carries the message of the stage that failed; success returns the poll body unchanged |
| UseTavus.FailedJobIsReturned | hooks/use-tavus.ts:63-64 | A job that ends with status `error` is returned, not thrown |
| UseTavus.ScriptReply | app/api/script/generate/route.ts:17-23 | The script endpoint's answer is ok exactly when accepted, and its JSON is the script |
| UseTavus.ScriptStageAgainstEndpoint | hooks/use-tavus.ts:19-42 | Against the script endpoint, an empty name or description fails at stage 1 after one request; otherwise the job carries the generated script |
| UseTavus.HookNamesTheVideo | hooks/use-tavus.ts:42 | The videos endpoint names the job `<product name> UGC Video`, as the hook asks |
| UseTavus.TavusHook.constructor | hooks/use-tavus.ts:5-6 | Not loading, no error |
| UseTavus.TavusHook.GenerateVideo | hooks/use-tavus.ts:8-72 | The result is the pipeline's; every request goes out with `loading` set and no error; afterwards `loading` is clear and `error` holds the failure message, or nothing |
| UseTavus.TavusHook.FetchReplicas | hooks/use-tavus.ts:74-86 | An ok reply's list, or the failure `Failed to fetch replicas`, which is also recorded as the error |
| ReplicaSelector.ReadyReplicas | app/components/replica-selector.tsx:28 | Exactly the ready replicas of the fetched list |
| ReplicaSelector.ReadyReplicasOfConcat | app/components/replica-selector.tsx:28 | The filter distributes over concatenation, so order is kept |
| ReplicaSelector.ReadyReplicasCounts | app/components/replica-selector.tsx:28 | Each ready replica is kept as many times as it occurs; the others are dropped |
| ReplicaSelector.ReadyReplicasKeepsReadyList | app/components/replica-selector.tsx:28 | A list of ready replicas is unchanged by the filter |
| ReplicaSelector.IsSelected | app/components/replica-selector.tsx:97-108 | A card is marked only when a replica is selected, always when it is that replica, never when the selected id differs |
| ReplicaSelector.Cards | app/components/replica-selector.tsx:87-108 | One card per replica, in order, highlighted exactly when its id is the selected replica's id |
| ReplicaSelector.AtMostOneHighlighted | app/components/replica-selector.tsx:97-108 | With distinct ids at most one card is highlighted, and none when nothing is selected |
| ReplicaSelector.NoneHighlighted | app/components/replica-selector.tsx:97-108 | No card is highlighted when no listed id is the selected one |
| ReplicaSelector.Selector.constructor | app/components/replica-selector.tsx:19-21 | An empty list, loading |
| ReplicaSelector.Selector.LoadReplicas | app/components/replica-selector.tsx:23-38 | Loading ends either way; success lists the ready replicas; failure keeps the list and records the hook's error |
| ReplicaSelector.Selector.Render | app/components/replica-selector.tsx:40-83 | Loading first, then the error, then the empty message exactly when nothing is listed, then the grid of cards |
| ReplicaSelector.Selector.Click | app/components/replica-selector.tsx:100 | Clicking the i-th card hands exactly that ready replica to the parent |
| LoadingSpinner.NextStep | app/components/loading-spinner.tsx:19-24 | Advance by one below the last step, otherwise back to 0 |
| LoadingSpinner.TicksStayInRange | app/components/loading-spinner.tsx:19-24 | From a step in range, any number of ticks stays in range |
| LoadingSpinner.TicksCompose | app/components/loading-spinner.tsx:19-24 | `a` ticks then `b` ticks equal `a + b` ticks |
| LoadingSpinner.TicksCountUp | app/components/loading-spinner.tsx:20-21 | Before wrapping, `n` ticks add `n` |
| LoadingSpinner.FullCycleReturns | app/components/loading-spinner.tsx:19-24 | From any step in range, one tick per step returns to it |
| LoadingSpinner.FullCycleReturnsToStart | app/components/loading-spinner.tsx:19-24 | From 0, as many ticks as steps return to 0 |
| LoadingSpinner.SingleStepStaysAtZero | app/components/loading-spinner.tsx:19-24 | With at most one step the counter stays at 0 |
| LoadingSpinner.StateOf | app/components/loading-spinner.tsx:63-69 | Done iff before the current step, active iff the current step, pending iff after it |
| LoadingSpinner.Emphasised | app/components/loading-spinner.tsx:57-71 | Full emphasis iff not pending, that is, at or before the current step |
| LoadingSpinner.States | app/components/loading-spinner.tsx:51-75 | The classification of each listed step |
| LoadingSpinner.OneActiveStep | app/components/loading-spinner.tsx:63-69 | Exactly one step is active when the current step is in range, none otherwise |
| LoadingSpinner.Spinner.constructor | app/components/loading-spinner.tsx:15 | The counter starts at 0 |
| LoadingSpinner.Spinner.Tick | app/components/loading-spinner.tsx:18-24 | The counter takes its next value and stays in range |
| ProductForm.AddImages | app/components/product-form.tsx:35-41 | At most five images, a prefix of old followed by new, with the old images kept in front |
| ProductForm.KeepOthers | app/components/product-form.tsx:46 | The index filter removes one element when the index falls in the list and none otherwise, and adds nothing new |
| ProductForm.KeepOthersDropsIndex | app/components/product-form.tsx:43-48 | The index filter removes exactly the element at the index |
| ProductForm.RemoveImageAt | app/components/product-form.tsx:43-48 | The list without its element at the index, the others in order; an index out of range changes nothing |
| ProductForm.GenerationRequest | app/components/product-form.tsx:66-70 | The hook is asked for the selected replica, the product's name and description, and no style |
| ProductForm.DownloadFileName | app/components/product-form.tsx:89 | The product name followed by `-ugc-video.mp4` |
| ProductForm.Form.constructor | app/components/product-form.tsx:24-31 | Input step, empty product, no replica, no video |
| ProductForm.Form.SetName | app/components/product-form.tsx:123 | Only the name changes |
| ProductForm.Form.SetDescription | app/components/product-form.tsx:132 | Only the description changes |
| ProductForm.Form.ImageUpload | app/components/product-form.tsx:35-41 | The images become the capped append; the old images stay in front |
| ProductForm.Form.RemoveImage | app/components/product-form.tsx:43-48 | The images lose exactly the element at the index |
| ProductForm.Form.ProductSubmit | app/components/product-form.tsx:50-54 | On to the replica step iff both name and description are non-empty; otherwise nothing changes |
| ProductForm.Form.ReplicaSelect | app/components/product-form.tsx:56-58 | The replica becomes the selection |
| ProductForm.Form.Back | app/components/product-form.tsx:207 | Back to the input step, with everything else kept |
| ProductForm.Form.Reset | app/components/product-form.tsx:99-104 | Input step, empty product, no replica, no video |
| ProductForm.Form.StartGeneration | app/components/product-form.tsx:60-63 | Without a selected replica nothing happens; otherwise the generating step |
| ProductForm.Form.FinishGeneration | app/components/product-form.tsx:65-77 | Success stores the video and shows the result; failure returns to the replica step and keeps the previous video |
| ProductForm.Form.HandleGenerateVideo | app/components/product-form.tsx:60-78 | No replica: no change and no request. Otherwise it runs the pipeline for the selected replica and product, sending each of its requests in order with `loading` set and no error. Success shows the result; failure returns to the replica step with the previous video kept and the hook's error set. The product and the selection never change, and the five-image cap holds |
| ProductForm.Form.DownloadName | app/components/product-form.tsx:80-89 | A download happens iff there is a video with a non-empty hosted URL, and it saves under the product's file name |
| ProductForm.Form.Render | app/components/product-form.tsx:106-353 | One screen per step: the input form, the presenter step, the generating screen, the result with the stored video, and nothing only at the result step without a video (never for a valid form). Continue is enabled iff name and description are filled in. The generate button shows iff a replica is selected and is enabled iff one is selected and nothing is loading. The hook's error is shown on the presenter step |

## Left out

- Real `fetch`, JSON parsing and `NextResponse` objects. Responses are values with `ok`, a status, a text and a JSON body.
- A request body that is not JSON, or is JSON `null`, becomes `None`: reading it throws. Any other body that is not an object reads as all fields `Undefined`. A member that is neither a string, `null` nor absent is not modelled.
- The API key is a parameter of construction, not an environment read.
- Network rejections (a `fetch` that throws) are not modelled. Such a rejection is an `Error`, whose own message the hook would record. The hook's `'Unknown error occurred'` fallback, which only applies to a thrown value that is not an `Error`, is not modelled either.
- Timing: the five-second wait between polls and the three-second spinner interval. Attempts and ticks are counted instead.
- `Math.random`: the three phrase positions are parameters.
- JSX, animation, styling, date formatting and the Blob/DOM download mechanics. Only the file name and the download guard are kept.
- React's asynchronous semantics: re-renders, hook dependencies and stale closures. So is the unawaited `response.json()` in `fetchReplicas`: the model treats the list as returned.
- UseTavus.TavusHook.GenerateVideo: a thrown error is reported as a `Failure` result instead of being rethrown.
- ProductForm.Form.HandleGenerateVideo: the state in between (the generating step while the pipeline runs) appears only through `StartGeneration` and the hook's record of each request.
- `createPersona`, which nothing in the wizard calls.
- The page layout file.
- The job-detail and job-poll routes under `app/api/tavus/videos/[videoId]/` are not part of this model. The hook's poll stage is an abstract answer.
- Tavus.TavusAPI.PollVideoStatus: the budget is an integer. A fractional JavaScript number such as 2.5 allows as many fetches as the next integer up (3), which the model does not represent.
- Tavus.MergeHeaders: caller headers are a string map. The `Headers` object and array forms that `fetch` also accepts are not modelled.
