/** The `/api/generate-video` handler of the Express server: how it turns the
    outcome of the video generator and of the Instagram upload into a
    response. Express routing, request parsing and logging are not modelled. */
module Server {
  import opened Wrappers
  import opened EnvConfig
  import Reel
  import JobVideo

  const InstaAppId: string := "INSTA_APP_ID"
  const InstaAccessToken: string := "INSTA_ACCESS_TOKEN"

  const NoDownloadUrlMessage: string := "Video generation failed - no download URL available"
  const FallbackErrorMessage: string := "Failed to generate video"
  const UploadedMessage: string := "Video generated and reel uploaded successfully"
  const ReelFailedMessage: string := "Video generated but reel upload failed"
  const SkippedMessage: string := "Video generated successfully (reel upload skipped - missing credentials or caption)"

  /** What the response says about the reel: the uploader's result object
      (`reelResult`), its error (`reelError`), or neither when skipped. */
  datatype ReelReport =
    | ReelUploaded(reelResult: Reel.UploadResult)
    | ReelFailed(reelError: Reel.ReelError)
    | ReelSkipped

  /** `{success: true, videoUrl, …, message}` or `{success: false, error}`. */
  datatype ResponseBody =
    | Generated(videoUrl: string, reel: ReelReport, message: string)
    | GenerationFailed(error: string)

  datatype Response = Response(status: nat, body: ResponseBody)

  /** The response together with every call the uploader made to Instagram. */
  datatype Handled = Handled(response: Response, instagramCalls: seq<Reel.RemoteCall>)

  /** The generator's `downloadUrl` when it is truthy. */
  function DownloadUrl(video: JobVideo.VideoOutcome): (u: Option<string>)
    ensures u.Some? ==> u.value != ""
    ensures u.Some? <==> video.Resolved? && video.downloadUrl.Some? && video.downloadUrl.value != ""
  {
    match video
    case Rejected(_) => None
    case Resolved(_, url, _) => if url.Some? && url.value != "" then url else None
  }

  /** The upload runs only with both Instagram credentials set and a
      non-empty `instagram_caption`. */
  predicate ReelGuard(env: Env, caption: Option<string>)
  {
    Truthy(env, InstaAppId) && Truthy(env, InstaAccessToken) && caption.Some? && caption.value != ""
  }

  /** The handler, given the request's caption, the generator's outcome, and
      the Instagram replies the uploader would see. */
  function GenerateVideo(env: Env, caption: Option<string>, video: JobVideo.VideoOutcome,
                         createReply: Reel.PostReply, remote: nat -> Reel.PollReply,
                         publishReply: Reel.PostReply): (h: Handled)
    ensures h.response.status == 500 <==> h.response.body.GenerationFailed?
    ensures h.response.status != 500 ==> h.response.status == 200
    ensures h.response.body.GenerationFailed? <==> DownloadUrl(video).None?
    ensures h.response.body.GenerationFailed? ==> h.response.body.error != ""
    ensures video.Resolved? && DownloadUrl(video).None? ==> h.response.body == GenerationFailed(NoDownloadUrlMessage)
    ensures video.Rejected? && video.message != "" ==> h.response.body == GenerationFailed(video.message)
    ensures DownloadUrl(video).Some? ==> h.response.body.videoUrl == DownloadUrl(video).value
    ensures |h.instagramCalls| > 0 <==> DownloadUrl(video).Some? && ReelGuard(env, caption)
    ensures DownloadUrl(video).Some? && ReelGuard(env, caption) ==>
              var run := Reel.UploadSpec(Reel.GraphBaseUrl, env[InstaAppId], env[InstaAccessToken], DownloadUrl(video).value,
                                         caption.value, Reel.DefaultMaxWaitTime, createReply, remote, publishReply);
              && h.instagramCalls == run.calls
              && (run.result.Uploaded? ==> h.response.body.reel == ReelUploaded(run.result))
              && (run.result.UploadFailed? ==> h.response.body.reel == ReelFailed(run.result.error))
    ensures h.response.body.Generated? ==>
              (h.response.body.reel.ReelSkipped? <==> !ReelGuard(env, caption))
              && (h.response.body.reel.ReelSkipped? ==> h.response.body.message == SkippedMessage)
              && (h.response.body.reel.ReelUploaded? ==>
                    h.response.body.reel.reelResult.Uploaded? && h.response.body.message == UploadedMessage)
              && (h.response.body.reel.ReelFailed? ==> h.response.body.message == ReelFailedMessage)
  {
    match video
    case Rejected(message) =>
      Handled(Response(500, GenerationFailed(if message == "" then FallbackErrorMessage else message)), [])
    case Resolved(_, url, _) =>
      if url.None? || url.value == "" then
        Handled(Response(500, GenerationFailed(NoDownloadUrlMessage)), [])
      else if ReelGuard(env, caption) then
        var run := Reel.UploadSpec(Reel.GraphBaseUrl, env[InstaAppId], env[InstaAccessToken], url.value, caption.value,
                                   Reel.DefaultMaxWaitTime, createReply, remote, publishReply);
        Reel.UploadProtocol(Reel.GraphBaseUrl, env[InstaAppId], env[InstaAccessToken], url.value, caption.value,
                            Reel.DefaultMaxWaitTime, createReply, remote, publishReply);
        match run.result
        case Uploaded(_, _) => Handled(Response(200, Generated(url.value, ReelUploaded(run.result), UploadedMessage)), run.calls)
        case UploadFailed(e) => Handled(Response(200, Generated(url.value, ReelFailed(e), ReelFailedMessage)), run.calls)
      else
        Handled(Response(200, Generated(url.value, ReelSkipped, SkippedMessage)), [])
  }

  /** When the upload is attempted, the uploader is built from the Instagram
      credentials and publishes the generated video's download URL with the
      request's caption: its first call creates the container with exactly
      those values, and the reel counts as uploaded only when the last call
      published it after the container became ready. */
  lemma ReelUsesDownloadUrl(env: Env, caption: Option<string>, video: JobVideo.VideoOutcome,
                            createReply: Reel.PostReply, remote: nat -> Reel.PollReply, publishReply: Reel.PostReply)
    requires DownloadUrl(video).Some? && ReelGuard(env, caption)
    ensures var h := GenerateVideo(env, caption, video, createReply, remote, publishReply);
      var create := h.instagramCalls[0].request;
      && h.instagramCalls[0].CreateCall?
      && create.url == Reel.GraphBaseUrl + "/" + env[InstaAppId] + "/media"
      && Reel.Lookup(create.params, "video_url") == DownloadUrl(video)
      && Reel.Lookup(create.params, "caption") == caption
      && Reel.Lookup(create.params, "access_token") == Some(env[InstaAccessToken])
      && (h.response.body.reel.ReelUploaded? <==>
            h.instagramCalls[|h.instagramCalls| - 1].PublishCall?
            && Reel.PublishOutcome(publishReply).Ok?)
  {
    var url := DownloadUrl(video).value;
    Reel.UploadProtocol(Reel.GraphBaseUrl, env[InstaAppId], env[InstaAccessToken], url, caption.value,
                        Reel.DefaultMaxWaitTime, createReply, remote, publishReply);
    Reel.CreateParamsCarryFields(url, caption.value, env[InstaAccessToken]);
  }

  /** Whatever the Instagram side does, a video with a download URL is
      reported as generated, with that URL, and the upload never turns the
      response into an error. */
  lemma ReelOutcomeNeverFailsRequest(env: Env, caption: Option<string>, video: JobVideo.VideoOutcome,
                                     createReply: Reel.PostReply, remote: nat -> Reel.PollReply, publishReply: Reel.PostReply,
                                     createReply': Reel.PostReply, remote': nat -> Reel.PollReply, publishReply': Reel.PostReply)
    requires DownloadUrl(video).Some?
    ensures var h := GenerateVideo(env, caption, video, createReply, remote, publishReply);
      var h' := GenerateVideo(env, caption, video, createReply', remote', publishReply');
      h.response.status == h'.response.status == 200
      && h.response.body.videoUrl == h'.response.body.videoUrl
      && (h.response.body.reel.ReelSkipped? <==> h'.response.body.reel.ReelSkipped?)
  {
  }
}
