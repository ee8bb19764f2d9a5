/** The Instagram Reels publisher: create a media container, poll its status
    until it is ready, failed or out of time, then publish it.

    The Graph API is not called: every remote answer is an input. A POST is
    answered by a `PostReply`; the k-th status request (counting from 0) is
    answered by `remote(k)`. The wall clock is the integer `elapsed`, which
    starts at 0 and advances by `checkInterval` after each poll that keeps
    waiting. */
module Reel {
  import opened Wrappers
  import opened Strings

  const GraphBaseUrl: string := "https://graph.instagram.com"
  const DefaultMaxWaitTime: int := 300000
  const DefaultCheckInterval: int := 5000

  /** `status_code` as the Graph API returns it: a string, a number, or absent. */
  datatype StatusCode = CodeText(text: string) | CodeNumber(number: int) | CodeAbsent

  /** The two fields of a status body; `status` is `None` when absent. */
  datatype StatusRecord = StatusRecord(statusCode: StatusCode, status: Option<string>)

  /** The answer to one status request: the parsed body, or the exception
      thrown by `fetch` or `response.json()`. The HTTP status of a status
      request is never inspected, so an error body is a `StatusBody` whose
      fields are absent. */
  datatype PollReply = StatusBody(record: StatusRecord) | StatusThrew(message: string)

  /** A parsed JSON body: its `id` member, if any, and its serialised text. */
  datatype JsonBody = JsonBody(id: Option<string>, text: string)

  /** The answer to a POST: `response.ok` with the parsed body, or the
      exception thrown by `fetch` or `response.json()`. */
  datatype PostReply = Answered(ok: bool, body: JsonBody) | PostThrew(message: string)

  /** `data.id` of the creation reply; `None` is JavaScript `undefined`. */
  type ContainerId = Option<string>

  /** The errors the uploader throws; their `message` text is not modelled. */
  datatype ReelError =
    | CreationFailed(body: JsonBody)
    | ContainerFailed(statusCode: StatusCode, status: Option<string>)
    | NotReadyAfter(maxWaitTime: int)
    | PublicationFailed(body: JsonBody)
    | RequestError(message: string)

  /** A request the uploader sends: method, URL and URL-encoded parameters in order. */
  datatype Request = Request(httpMethod: string, url: string, params: seq<(string, string)>)

  /** Every remote call of one `uploadReel`, in the order made. */
  datatype RemoteCall = CreateCall(request: Request) | StatusCall(request: Request) | PublishCall(request: Request)

  /** The object `uploadReel` resolves with: `success: true` with the container
      id and the publication body, or `success: false` with the error. */
  datatype UploadResult =
    | Uploaded(containerId: ContainerId, publicationResult: JsonBody)
    | UploadFailed(error: ReelError)

  /** The logical state a status body puts the container in. */
  datatype Phase = Ready | Failed | InProgress | Unrecognised

  /** How the wait ends, with the number of status requests made. */
  datatype Wait = ContainerReady(polls: nat) | WaitFailed(error: ReelError, polls: nat)

  datatype UploadRun = UploadRun(result: UploadResult, calls: seq<RemoteCall>)

  // ---------------------------------------------------------------- status

  /** The status checks of the polling loop, in the order the loop makes them
      (JavaScript `===`, so the number 1 and the string "1" differ). */
  function Classify(r: StatusRecord): Phase
  {
    if r.statusCode == CodeText("FINISHED") || r.statusCode == CodeNumber(1) || r.status == Some("FINISHED") then
      Ready
    else if r.statusCode == CodeText("ERROR") || r.statusCode == CodeNumber(3) || r.status == Some("ERROR")
         || r.statusCode == CodeText("EXPIRED") || r.statusCode == CodeNumber(2) || r.status == Some("EXPIRED") then
      Failed
    else if r.statusCode == CodeText("IN_PROGRESS") || r.statusCode == CodeNumber(0) || r.status == Some("IN_PROGRESS") then
      InProgress
    else
      Unrecognised
  }

  predicate SignalsReady(reply: PollReply)
  {
    reply.StatusBody? && Classify(reply.record) == Ready
  }

  predicate SignalsFailure(reply: PollReply)
  {
    reply.StatusBody? && Classify(reply.record) == Failed
  }

  /** The reply sends the loop to sleep and poll again. */
  predicate KeepsWaiting(reply: PollReply)
  {
    reply.StatusBody? && (Classify(reply.record) == InProgress || Classify(reply.record) == Unrecognised)
  }

  /** The numeric code, the textual code and the `status` text are
      interchangeable names of the same state, and a ready signal wins over
      any failure signal in the same record. */
  lemma StatusNormalisation(r: StatusRecord)
    ensures r.statusCode == CodeNumber(1) || r.statusCode == CodeText("FINISHED") || r.status == Some("FINISHED")
            <==> Classify(r) == Ready
    ensures Classify(r) == Failed <==>
              !(r.statusCode == CodeNumber(1) || r.statusCode == CodeText("FINISHED") || r.status == Some("FINISHED"))
              && (r.statusCode == CodeNumber(3) || r.statusCode == CodeText("ERROR") || r.status == Some("ERROR")
                  || r.statusCode == CodeNumber(2) || r.statusCode == CodeText("EXPIRED") || r.status == Some("EXPIRED"))
    ensures Classify(StatusRecord(CodeNumber(1), Some("ERROR"))) == Ready
    ensures Classify(StatusRecord(CodeNumber(2), None)) == Failed
  {
  }

  /** In-progress and unrecognised records (a body without status fields, as
      an HTTP error body is) both keep the loop waiting; neither is an error. */
  lemma WaitingIsNeverAnError(r: StatusRecord)
    ensures Classify(r) == InProgress || Classify(r) == Unrecognised <==>
              KeepsWaiting(StatusBody(r))
    ensures KeepsWaiting(StatusBody(StatusRecord(CodeNumber(0), None)))
    ensures KeepsWaiting(StatusBody(StatusRecord(CodeAbsent, None)))
    ensures KeepsWaiting(StatusBody(StatusRecord(CodeText("PUBLISHED"), Some("done"))))
  {
  }

  // ------------------------------------------------------------- requests

  /** The parameters of the creation POST, in insertion order. */
  function CreateParams(videoUrl: string, caption: string, accessToken: string): seq<(string, string)>
  {
    [("domain", "INSTAGRAM"), ("media_type", "REELS"), ("video_url", videoUrl), ("access_token", accessToken)]
    + (if caption != "" then [("caption", caption)] else [])
  }

  /** `URLSearchParams.get`: the value of the first parameter named `key`. */
  function Lookup(ps: seq<(string, string)>, key: string): Option<string>
  {
    if ps == [] then None else if ps[0].0 == key then Some(ps[0].1) else Lookup(ps[1..], key)
  }

  /** The creation request always carries the domain, the media type, the
      video URL and the token, and carries a caption exactly when it is non-empty. */
  lemma CreateParamsCarryFields(videoUrl: string, caption: string, accessToken: string)
    ensures var ps := CreateParams(videoUrl, caption, accessToken);
      && Lookup(ps, "domain") == Some("INSTAGRAM")
      && Lookup(ps, "media_type") == Some("REELS")
      && Lookup(ps, "video_url") == Some(videoUrl)
      && Lookup(ps, "access_token") == Some(accessToken)
      && Lookup(ps, "caption") == (if caption != "" then Some(caption) else None)
      && |ps| == (if caption != "" then 5 else 4)
  {
    var ps := CreateParams(videoUrl, caption, accessToken);
    var tail := if caption != "" then [("caption", caption)] else [];
    var t2 := [("video_url", videoUrl), ("access_token", accessToken)] + tail;
    var t3 := [("access_token", accessToken)] + tail;
    assert ps[1..][1..] == t2 && t2[1..] == t3 && t3[1..] == tail;
    assert Lookup(tail, "caption") == (if caption != "" then Some(caption) else None);
    assert Lookup(t3, "caption") == Lookup(tail, "caption");
    assert Lookup(t2, "caption") == Lookup(t3, "caption");
    assert Lookup(t2, "video_url") == Some(videoUrl);
    assert Lookup(t2, "access_token") == Lookup(t3, "access_token") == Some(accessToken);
  }

  function IdText(id: ContainerId): string
  {
    match id
    case Some(s) => s
    case None => "undefined"
  }

  function CreateRequest(baseUrl: string, appId: string, accessToken: string, videoUrl: string, caption: string): Request
  {
    Request("POST", baseUrl + "/" + appId + "/media", CreateParams(videoUrl, caption, accessToken))
  }

  function StatusRequest(baseUrl: string, accessToken: string, id: ContainerId): Request
  {
    Request("GET", baseUrl + "/" + IdText(id), [("fields", "status_code,status"), ("access_token", accessToken)])
  }

  function PublishRequest(baseUrl: string, appId: string, accessToken: string, id: ContainerId): Request
  {
    Request("POST", baseUrl + "/" + appId + "/media_publish", [("creation_id", IdText(id)), ("access_token", accessToken)])
  }

  // -------------------------------------------------------------- replies

  /** `createContainer`: a non-ok reply throws with the body, an exception is
      rethrown, and an ok reply yields `data.id`, which may be absent. */
  function CreateOutcome(reply: PostReply): (r: Result<ContainerId, ReelError>)
    ensures r.Ok? <==> reply.Answered? && reply.ok
    ensures r.Ok? ==> r.value == reply.body.id
    ensures reply.Answered? && !reply.ok ==> r == Err(CreationFailed(reply.body))
    ensures reply.PostThrew? ==> r == Err(RequestError(reply.message))
  {
    match reply
    case PostThrew(m) => Err(RequestError(m))
    case Answered(ok, body) => if ok then Ok(body.id) else Err(CreationFailed(body))
  }

  /** `publishContainer`: a non-ok reply throws with the body, an exception is
      rethrown, and an ok reply yields the whole body. */
  function PublishOutcome(reply: PostReply): (r: Result<JsonBody, ReelError>)
    ensures r.Ok? <==> reply.Answered? && reply.ok
    ensures r.Ok? ==> r.value == reply.body
    ensures reply.Answered? && !reply.ok ==> r == Err(PublicationFailed(reply.body))
    ensures reply.PostThrew? ==> r == Err(RequestError(reply.message))
  {
    match reply
    case PostThrew(m) => Err(RequestError(m))
    case Answered(ok, body) => if ok then Ok(body) else Err(PublicationFailed(body))
  }

  // ------------------------------------------------------------- the wait

  /** The rest of the polling loop from its k-th iteration, `elapsed`
      milliseconds after the start. */
  function WaitFrom(remote: nat -> PollReply, k: nat, elapsed: int, maxWaitTime: int, checkInterval: int): Wait
    requires checkInterval > 0
    decreases maxWaitTime - elapsed
  {
    if elapsed >= maxWaitTime then
      WaitFailed(NotReadyAfter(maxWaitTime), k)
    else
      match remote(k)
      case StatusThrew(m) => WaitFailed(RequestError(m), k + 1)
      case StatusBody(r) =>
        match Classify(r)
        case Ready => ContainerReady(k + 1)
        case Failed => WaitFailed(ContainerFailed(r.statusCode, r.status), k + 1)
        case _ => WaitFrom(remote, k + 1, elapsed + checkInterval, maxWaitTime, checkInterval)
  }

  /** What `waitForContainerReady` does, started at elapsed time 0. */
  function WaitSpec(remote: nat -> PollReply, maxWaitTime: int, checkInterval: int): Wait
    requires checkInterval > 0
  {
    WaitFrom(remote, 0, 0, maxWaitTime, checkInterval)
  }

  /** Polls that keep waiting are skipped over one interval each. */
  lemma {:induction false} SkipWaitingPolls(remote: nat -> PollReply, k: nat, j: nat, maxWaitTime: int, checkInterval: int)
    requires checkInterval > 0 && k <= j
    requires j * checkInterval < maxWaitTime
    requires forall i: nat :: k <= i < j ==> KeepsWaiting(remote(i))
    ensures WaitFrom(remote, k, k * checkInterval, maxWaitTime, checkInterval)
         == WaitFrom(remote, j, j * checkInterval, maxWaitTime, checkInterval)
    decreases j - k
  {
    if k < j {
      assert k * checkInterval < j * checkInterval by { MulStrict(k, j, checkInterval); }
      assert KeepsWaiting(remote(k));
      assert (k + 1) * checkInterval == k * checkInterval + checkInterval;
      SkipWaitingPolls(remote, k + 1, j, maxWaitTime, checkInterval);
    }
  }

  lemma MulStrict(a: nat, b: nat, c: int)
    requires a < b && c > 0
    ensures a * c < b * c
  {
    assert b * c == a * c + (b - a) * c;
  }

  /** A ready record at poll j, after polls that all kept waiting, makes the
      wait succeed at once, having made j + 1 requests. */
  lemma ReadyStopsPolling(remote: nat -> PollReply, j: nat, maxWaitTime: int, checkInterval: int)
    requires checkInterval > 0 && j * checkInterval < maxWaitTime
    requires forall i: nat :: i < j ==> KeepsWaiting(remote(i))
    requires SignalsReady(remote(j))
    ensures WaitSpec(remote, maxWaitTime, checkInterval) == ContainerReady(j + 1)
  {
    SkipWaitingPolls(remote, 0, j, maxWaitTime, checkInterval);
  }

  /** An error or expired record at poll j fails the wait at once: no further
      request is made. */
  lemma FailureStopsPolling(remote: nat -> PollReply, j: nat, maxWaitTime: int, checkInterval: int)
    requires checkInterval > 0 && j * checkInterval < maxWaitTime
    requires forall i: nat :: i < j ==> KeepsWaiting(remote(i))
    requires SignalsFailure(remote(j))
    ensures WaitSpec(remote, maxWaitTime, checkInterval)
         == WaitFailed(ContainerFailed(remote(j).record.statusCode, remote(j).record.status), j + 1)
  {
    SkipWaitingPolls(remote, 0, j, maxWaitTime, checkInterval);
  }

  /** When every poll that fits in the time budget keeps waiting, the wait
      fails with the timeout after exactly those polls. */
  lemma TimeoutAfterBudget(remote: nat -> PollReply, n: nat, maxWaitTime: int, checkInterval: int)
    requires checkInterval > 0
    requires n * checkInterval >= maxWaitTime
    requires n == 0 || (n - 1) * checkInterval < maxWaitTime
    requires forall i: nat :: i < n ==> KeepsWaiting(remote(i))
    ensures WaitSpec(remote, maxWaitTime, checkInterval) == WaitFailed(NotReadyAfter(maxWaitTime), n)
  {
    if n > 0 {
      SkipWaitingPolls(remote, 0, n - 1, maxWaitTime, checkInterval);
      assert (n - 1) * checkInterval + checkInterval == n * checkInterval;
    }
  }

  /** With no time budget the loop polls nothing and times out. */
  lemma NoBudgetNoPoll(remote: nat -> PollReply, maxWaitTime: int, checkInterval: int)
    requires checkInterval > 0 && maxWaitTime <= 0
    ensures WaitSpec(remote, maxWaitTime, checkInterval) == WaitFailed(NotReadyAfter(maxWaitTime), 0)
  {
  }

  /** How any wait from iteration k ends: every poll but the last kept
      waiting, every poll started before the deadline, and the outcome is
      decided by the last reply (or by the deadline, for a timeout). */
  lemma {:induction false} WaitFromShape(remote: nat -> PollReply, k: nat, maxWaitTime: int, checkInterval: int)
    requires checkInterval > 0
    ensures var w := WaitFrom(remote, k, k * checkInterval, maxWaitTime, checkInterval);
      && w.polls >= k
      && (forall i: nat :: k <= i < w.polls - 1 ==> KeepsWaiting(remote(i)))
      && (w.polls > k ==> (w.polls - 1) * checkInterval < maxWaitTime)
      && (w.ContainerReady? ==> w.polls > k && SignalsReady(remote(w.polls - 1)))
      && (w.WaitFailed? && w.error.ContainerFailed? ==> w.polls > k && SignalsFailure(remote(w.polls - 1)))
      && (w.WaitFailed? && w.error.RequestError? ==> w.polls > k && remote(w.polls - 1).StatusThrew?)
      && (w.WaitFailed? && w.error.NotReadyAfter? ==>
            w.polls * checkInterval >= maxWaitTime && (w.polls > k ==> KeepsWaiting(remote(w.polls - 1))))
      && (w.WaitFailed? ==> !w.error.CreationFailed? && !w.error.PublicationFailed?)
    decreases maxWaitTime - k * checkInterval
  {
    var w := WaitFrom(remote, k, k * checkInterval, maxWaitTime, checkInterval);
    if k * checkInterval < maxWaitTime && KeepsWaiting(remote(k)) {
      assert (k + 1) * checkInterval == k * checkInterval + checkInterval;
      assert w == WaitFrom(remote, k + 1, (k + 1) * checkInterval, maxWaitTime, checkInterval);
      WaitFromShape(remote, k + 1, maxWaitTime, checkInterval);
    }
  }

  /** The wait ends in exactly one of four ways, each explained by the polls
      it made; in particular it never succeeds unless some poll within the
      time budget reported a ready status, and it never returns false. */
  lemma WaitOutcomes(remote: nat -> PollReply, maxWaitTime: int, checkInterval: int)
    requires checkInterval > 0
    ensures var w := WaitSpec(remote, maxWaitTime, checkInterval);
      && (forall i: nat :: i < w.polls - 1 ==> KeepsWaiting(remote(i)))
      && (w.polls > 0 ==> (w.polls - 1) * checkInterval < maxWaitTime)
      && (w.ContainerReady? <==> w.polls > 0 && SignalsReady(remote(w.polls - 1)))
      && (w.WaitFailed? ==> w.error.ContainerFailed? || w.error.RequestError? || w.error.NotReadyAfter?)
      && (w.WaitFailed? && w.error.NotReadyAfter? ==>
            w.polls * checkInterval >= maxWaitTime && forall i: nat :: i < w.polls ==> KeepsWaiting(remote(i)))
  {
    WaitFromShape(remote, 0, maxWaitTime, checkInterval);
    var w := WaitSpec(remote, maxWaitTime, checkInterval);
    assert 0 * checkInterval == 0;
    if w.WaitFailed? && w.error.NotReadyAfter? {
      forall i: nat | i < w.polls ensures KeepsWaiting(remote(i)) {
        if i < w.polls - 1 {
        }
      }
    }
  }

  // ----------------------------------------------------------- the upload

  /** What `uploadReel` does: the result object and the remote calls, in order. */
  function UploadSpec(baseUrl: string, appId: string, accessToken: string, videoUrl: string, caption: string,
                      maxWaitTime: int, createReply: PostReply, remote: nat -> PollReply, publishReply: PostReply): UploadRun
  {
    var create := [CreateCall(CreateRequest(baseUrl, appId, accessToken, videoUrl, caption))];
    match CreateOutcome(createReply)
    case Err(e) => UploadRun(UploadFailed(e), create)
    case Ok(id) =>
      var w := WaitSpec(remote, maxWaitTime, DefaultCheckInterval);
      var polls := Repeat(StatusCall(StatusRequest(baseUrl, accessToken, id)), w.polls);
      match w
      case WaitFailed(e, _) => UploadRun(UploadFailed(e), create + polls)
      case ContainerReady(_) =>
        var publish := [PublishCall(PublishRequest(baseUrl, appId, accessToken, id))];
        match PublishOutcome(publishReply)
        case Err(e) => UploadRun(UploadFailed(e), create + polls + publish)
        case Ok(body) => UploadRun(Uploaded(id, body), create + polls + publish)
  }

  /** The steps run in order, each at most once: the container is created
      first and only once, publishing happens only after the wait reported
      ready and is the last call, and success means all three steps succeeded.
      A success carries the created container id and the publication body; a
      failure carries the error of the step that failed. */
  lemma UploadProtocol(baseUrl: string, appId: string, accessToken: string, videoUrl: string, caption: string,
                       maxWaitTime: int, createReply: PostReply, remote: nat -> PollReply, publishReply: PostReply)
    ensures var run := UploadSpec(baseUrl, appId, accessToken, videoUrl, caption, maxWaitTime, createReply, remote, publishReply);
      var created := CreateOutcome(createReply).Ok?;
      var ready := WaitSpec(remote, maxWaitTime, DefaultCheckInterval).ContainerReady?;
      && |run.calls| >= 1
      && run.calls[0] == CreateCall(CreateRequest(baseUrl, appId, accessToken, videoUrl, caption))
      && (forall i :: 1 <= i < |run.calls| ==> !run.calls[i].CreateCall?)
      && (forall i :: 0 <= i < |run.calls| - 1 ==> !run.calls[i].PublishCall?)
      && (run.calls[|run.calls| - 1].PublishCall? <==> created && ready)
      && (run.result.Uploaded? <==> created && ready && PublishOutcome(publishReply).Ok?)
      && (!created ==> run.result == UploadFailed(CreateOutcome(createReply).error) && |run.calls| == 1)
      && (run.result.Uploaded? ==>
            run.result == Uploaded(CreateOutcome(createReply).value, PublishOutcome(publishReply).value))
      && (created && WaitSpec(remote, maxWaitTime, DefaultCheckInterval).WaitFailed? ==>
            run.result == UploadFailed(WaitSpec(remote, maxWaitTime, DefaultCheckInterval).error))
      && (created && ready && PublishOutcome(publishReply).Err? ==>
            run.result == UploadFailed(PublishOutcome(publishReply).error))
  {
  }

  /** The uploader object: credentials and base URL, set once by the constructor. */
  class InstagramReelsUploader {
    const appId: string
    const accessToken: string
    const baseUrl: string

    constructor (appId: string, accessToken: string)
      ensures this.appId == appId && this.accessToken == accessToken && baseUrl == GraphBaseUrl
    {
      this.appId := appId;
      this.accessToken := accessToken;
      baseUrl := GraphBaseUrl;
    }

    /** Step 1: send the creation request and read the container id. */
    method CreateContainer(videoUrl: string, caption: string, reply: PostReply)
      returns (request: Request, result: Result<ContainerId, ReelError>)
      ensures request == CreateRequest(baseUrl, appId, accessToken, videoUrl, caption)
      ensures result.Ok? <==> reply.Answered? && reply.ok
      ensures result == CreateOutcome(reply)
    {
      request := CreateRequest(baseUrl, appId, accessToken, videoUrl, caption);
      match reply {
        case PostThrew(m) =>
          result := Err(RequestError(m));
        case Answered(ok, body) =>
          if !ok {
            result := Err(CreationFailed(body));
          } else {
            result := Ok(body.id);
          }
      }
    }

    /** Step 2: poll the container status until it is ready, it failed, or
        `maxWaitTime` has elapsed. `statusRequest` is the request every poll sends. */
    method WaitForContainerReady(containerId: ContainerId, remote: nat -> PollReply, maxWaitTime: int, checkInterval: int)
      returns (w: Wait, statusRequest: Request)
      requires checkInterval > 0
      ensures w == WaitSpec(remote, maxWaitTime, checkInterval)
      ensures statusRequest == StatusRequest(baseUrl, accessToken, containerId)
    {
      statusRequest := StatusRequest(baseUrl, accessToken, containerId);
      var elapsed := 0;
      var k: nat := 0;
      while elapsed < maxWaitTime
        invariant WaitFrom(remote, k, elapsed, maxWaitTime, checkInterval) == WaitSpec(remote, maxWaitTime, checkInterval)
        decreases maxWaitTime - elapsed
      {
        match remote(k) {
          case StatusThrew(m) =>
            w := WaitFailed(RequestError(m), k + 1);
            return;
          case StatusBody(r) =>
            var phase := Classify(r);
            if phase == Ready {
              w := ContainerReady(k + 1);
              return;
            } else if phase == Failed {
              w := WaitFailed(ContainerFailed(r.statusCode, r.status), k + 1);
              return;
            }
        }
        elapsed := elapsed + checkInterval;
        k := k + 1;
      }
      w := WaitFailed(NotReadyAfter(maxWaitTime), k);
    }

    /** Step 3: publish the container. */
    method PublishContainer(containerId: ContainerId, reply: PostReply)
      returns (request: Request, result: Result<JsonBody, ReelError>)
      ensures request == PublishRequest(baseUrl, appId, accessToken, containerId)
      ensures result.Ok? <==> reply.Answered? && reply.ok
      ensures result == PublishOutcome(reply)
    {
      request := PublishRequest(baseUrl, appId, accessToken, containerId);
      match reply {
        case PostThrew(m) =>
          result := Err(RequestError(m));
        case Answered(ok, body) =>
          if !ok {
            result := Err(PublicationFailed(body));
          } else {
            result := Ok(body);
          }
      }
    }

    /** Create, wait (with the default check interval), publish; any failure
        becomes `UploadFailed`, so this never throws. */
    method UploadReel(videoUrl: string, caption: string, maxWaitTime: int,
                      createReply: PostReply, remote: nat -> PollReply, publishReply: PostReply)
      returns (result: UploadResult, calls: seq<RemoteCall>)
      ensures UploadRun(result, calls)
           == UploadSpec(baseUrl, appId, accessToken, videoUrl, caption, maxWaitTime, createReply, remote, publishReply)
      ensures result.Uploaded? ==> WaitSpec(remote, maxWaitTime, DefaultCheckInterval).ContainerReady?
    {
      var createRequest, created := CreateContainer(videoUrl, caption, createReply);
      calls := [CreateCall(createRequest)];
      if created.Err? {
        result := UploadFailed(created.error);
        return;
      }
      var containerId := created.value;
      var w, statusRequest := WaitForContainerReady(containerId, remote, maxWaitTime, DefaultCheckInterval);
      calls := calls + Repeat(StatusCall(statusRequest), w.polls);
      if w.WaitFailed? {
        result := UploadFailed(w.error);
        return;
      }
      var publishRequest, published := PublishContainer(containerId, publishReply);
      calls := calls + [PublishCall(publishRequest)];
      if published.Err? {
        result := UploadFailed(published.error);
      } else {
        result := Uploaded(containerId, published.value);
      }
    }
  }
}
