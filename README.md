# Job alert reels — a Dafny model

The repository turns a job posting into a 30-second vertical video and posts
it to Instagram as a reel. This project models the decision logic of that
pipeline in Dafny and proves properties of it:

- **Reel** (`reel.js`). The Instagram uploader is a class holding the app id,
  the access token and the Graph API base URL. It creates a media container,
  then polls its status until it is ready, has failed, or the time budget
  `maxWaitTime` is used up, then publishes it. `uploadReel` turns every
  failure into `{success: false, error}`. The Instagram side is a scripted
  reply per request (`remote: nat -> PollReply` for the k-th status poll).
  Time is an explicit clock that advances by `checkInterval` per poll.
- **CheckVideo** (`check-video.js`). `analyzeVideo` applies the rule set for
  reels to ffprobe metadata. It pushes onto `issues` and `recommendations`
  in rule order. Sizes are compared in bytes, and the aspect ratio and the
  `num/den` frame rate are compared by cross-multiplication.
  `generateFixCommand` builds a fixed ffmpeg argument list.
- **Timeline** and **JobVideo** (`image.js`).
  - The per-frame animation is modelled as exact real arithmetic: the
    easing curve, the background fade, each text layer's opacity and slide,
    and 900 frames at t = i/30.
  - The zero-padded frame file names, and the frame loop over a modelled
    local disk.
  - The ffmpeg option lists with and without music.
  - The end/error cleanup protocol and what the promise settles with.
  - The `tmpfiles.org/` → `tmpfiles.org/dl/` link rewrite.
- **EnvConfig**, **Server** and **NetlifyConfig** (`server.js`,
  `netlify/functions/config.js`).
  - Both servers serve the same configuration object.
  - `/api/generate-video` shapes its response from the generator's outcome
    and the Instagram upload.
  - The Netlify function dispatches on the HTTP method.
- **JobPage** (`index.js`). The page's two globals, the configuration and
  the extracted job object, are fields of a class. The class also holds the
  part of the DOM they drive. The model covers:
  - the missing-configuration list;
  - the guards before the Gemini and Supabase requests;
  - the code-fence cleanup of Gemini's reply;
  - the displayed values;
  - the projection of the row that is inserted.

**Strings** holds the JavaScript string operations the other modules use:
`includes`, `replace` with a string pattern (first occurrence only), `trim`,
`padStart` and `String(n)`. **Wrappers** holds `Option` and `Result`.

The doc comment of `waitForContainerReady` promises `false` on a timeout. The
code throws instead, and the model follows the code (`Reel.WaitOutcomes`).

## Model

| member | source | states |
|---|---|---|
| Strings.Includes | check-video.js:72 | `includes` is true exactly when the pattern occurs at some index |
| Strings.ReplaceFirst | image.js:282 | only the first occurrence is replaced; without an occurrence the string is unchanged |
| Strings.TrimSpec | index.js:53 | the trimmed text is the slice of the input at a returned offset; everything before and after that slice is white space, the slice neither starts nor ends with white space, and it is empty only for an all-white-space input |
| Strings.TrimIdempotent | index.js:118 | trimming twice is trimming once |
| Strings.PadStart | image.js:134 | a short string is padded on the left with the fill to the width; a long one is unchanged |
| Strings.ParseDecimalOfDecimal | image.js:134 | the decimal rendering of a number reads back as that number |
| Reel.StatusNormalisation | reel.js:72-84 | ready iff `status_code` is `'FINISHED'` or 1, or `status` is `'FINISHED'`; failed iff not ready and the code is `'ERROR'`/3/`'EXPIRED'`/2 or the status is `'ERROR'`/`'EXPIRED'`; code 1 with status `'ERROR'` is ready |
| Reel.WaitingIsNeverAnError | reel.js:86-90 | in-progress and unrecognised records, including a record without status fields, keep the loop waiting |
| Reel.CreateParamsCarryFields | reel.js:21-30 | the creation request always carries domain, media type, video URL and token, and carries the caption exactly when it is non-empty |
| Reel.CreateOutcome | reel.js:41-52 | a non-ok reply fails with its body, a thrown request is rethrown, an ok reply yields `data.id` |
| Reel.PublishOutcome | reel.js:123-134 | a non-ok reply fails with its body, a thrown request is rethrown, an ok reply yields the whole body |
| Reel.SkipWaitingPolls | reel.js:86-90 | polls that keep waiting each advance the clock by one interval and change nothing else |
| Reel.ReadyStopsPolling | reel.js:65-79 | a ready record at poll j after waiting polls ends the wait successfully after exactly j + 1 requests |
| Reel.FailureStopsPolling | reel.js:80-95 | an error or expired record at poll j fails the wait with that record, with no further request |
| Reel.TimeoutAfterBudget | reel.js:65-98 | when every poll within the budget keeps waiting, the wait times out after exactly those polls |
| Reel.NoBudgetNoPoll | reel.js:65-98 | with `maxWaitTime <= 0` no status request is made and the wait times out |
| Reel.WaitFromShape | reel.js:65-98 | from any iteration, every poll but the last kept waiting, each poll began before the deadline, and the last reply or the deadline decides the outcome |
| Reel.WaitOutcomes | reel.js:55-98 | the wait succeeds iff its last poll reported ready; otherwise it fails with a container failure, a request error or the timeout; it never returns false |
| Reel.UploadProtocol | reel.js:144-173 | the container is created first and once, publishing is the last call and only after a ready wait, success means all three steps succeeded and carries the created container id and the publication body, and a failed creation, wait or publication returns that step's own error (a failed creation making no other call) |
| Reel.InstagramReelsUploader.constructor | reel.js:6-10 | the uploader keeps the app id and token and uses the Graph API base URL |
| Reel.InstagramReelsUploader.CreateContainer | reel.js:18-53 | sends the creation request and returns the outcome `CreateOutcome` gives |
| Reel.InstagramReelsUploader.WaitForContainerReady | reel.js:62-99 | the polling loop ends exactly as `WaitSpec` says, and every poll sends the status request for the container |
| Reel.InstagramReelsUploader.PublishContainer | reel.js:106-135 | sends the publication request and returns the outcome `PublishOutcome` gives |
| Reel.InstagramReelsUploader.UploadReel | reel.js:144-174 | result and remote calls are those of `UploadSpec`; success implies the wait reported ready |
| CheckVideo.FindIndex | check-video.js:62-63 | the index of the first stream of the requested type, or none when there is none |
| CheckVideo.FindStream | check-video.js:62-63 | `find` returns the first stream of the type, and nothing iff no stream has that type |
| CheckVideo.AspectMatchesQuotient | check-video.js:109-124 | for a non-zero height the cross-multiplied test equals `w/h < 9/16 \|\| w/h > 16/9` |
| CheckVideo.FrameRateMatchesQuotient | check-video.js:127-132 | for a non-zero denominator the cross-multiplied test equals `num/den < 23 \|\| num/den > 60` |
| CheckVideo.SizeRuleInBytes | check-video.js:88-93 | `size / 1048576 > 300` holds exactly when size > 314572800 bytes |
| CheckVideo.Observe | check-video.js:60-72 | the rules see whether `format_name` contains "mp4", the probed duration and size as given, and the first video and first audio stream in stream order, absent iff no stream of that type |
| CheckVideo.IssuesFollowRules | check-video.js:67-146 | an issue is reported iff its rule fires (container, duration outside [3, 90], size, and with a video stream codec, resolution, aspect ratio, frame rate; non-aac audio), once each, in rule order |
| CheckVideo.RecommendationsFollowRules | check-video.js:67-146 | a recommendation is made iff due: beside each issue except a too-short video, plus "add audio" exactly when there is no audio stream; once each, in rule order |
| CheckVideo.CheckVideoStream | check-video.js:95-133 | the video-stream block pushes the codec, resolution, aspect and frame-rate findings in that order |
| CheckVideo.AnalyzeVideo | check-video.js:60-147 | the returned lists are the ones the rules push for the observed metadata |
| CheckVideo.GenerateFixCommand | check-video.js:150-176 | whatever the issues, 22 arguments: `ffmpeg -i <input>`, the fixed H.264/AAC/30 fps/MP4 settings, then the output file |
| Timeline.EaseOutCubicShape | image.js:246-248 | the easing maps 0 to 0 and 1 to 1, stays in [0, 1] and is monotone on [0, 1] |
| Timeline.BackgroundFade | image.js:50-59 | no background before 0.2 s; the ramp starts at opacity 0 at 0.2 s, lies in [0, 1], is 1 exactly from 1 s on, and never decreases |
| Timeline.BackgroundAtFrame24 | image.js:34-54 | frame 24 (0.8 s) draws the background at opacity 0.75 |
| Timeline.LayerPoseSpec | image.js:62-95 | a text is drawn from its start time, at opacity 0 with the full 30 px or 50 px offset; it slides 30 px up or 50 px sideways, by an amount that shrinks as the opacity grows; it rests opaque 0.6 s after its start |
| Timeline.LayerAlphaMonotone | image.js:63-71 | a text never fades back out |
| Timeline.StartedLayers | image.js:61-62 | a layer is among the started ones iff it is one of the layers and its start time has come |
| Timeline.DrawnLayersAreStarted | image.js:62-118 | the texts drawn at a time are exactly the started layers, in drawing order, each with its own text, font and colour |
| Timeline.DrawnLayersGrow | image.js:62-118 | a layer started at one time is still started later; the number drawn never decreases; all are drawn once every start has passed, and none before the first start |
| Timeline.SettledLayers | image.js:62-95 | once every text has settled, each is drawn opaque at its own position with its font and colour |
| Timeline.PulseFrames | image.js:121 | the pulse runs on frames 301 to 749 exactly |
| Timeline.OpeningAndSettledScenes | image.js:33-118 | frame 0 is blank; from 3.2 s on the full background and all seven texts are in place |
| Timeline.PaddedFrameNumber | image.js:134 | a frame number below 900, padded to six digits, reads back as the number |
| Timeline.FrameFileNameRoundTrip | image.js:134 | every frame name has the `frame_%06d.png` shape the encoder reads, and the frame number is recovered from it |
| Timeline.FrameFileNamesDistinct | image.js:133-135 | different frames are written to different files |
| JobVideo.RenderedFramesSpec | image.js:33-135 | the rendered files are exactly one per frame, named after it and holding that frame's scene |
| JobVideo.RenderedFramesNames | image.js:134-135 | the rendered file names are exactly the names of the frames rendered |
| JobVideo.RenderedFramesScenes | image.js:33-135 | each frame's file holds the scene at that frame's time |
| JobVideo.RenderedFramesCount | image.js:33-135 | n frames produce exactly n files |
| JobVideo.RenderFrames | image.js:25-141 | the frame loop creates the frames directory if needed and adds exactly the 900 frame files; the videos are untouched |
| JobVideo.CleanupFrames | image.js:251-260 | every frame file and the directory are removed; the videos are untouched |
| JobVideo.EncoderOptions | image.js:150-186 | the encoder reads the frame pattern at 30 fps and writes 30 s at 30 fps in H.264/yuv420p to the video path; music, AAC and `-shortest` appear exactly when the music file exists |
| JobVideo.UploadToTmpFiles | image.js:262-291 | a URL comes back iff the reply is ok with status "success" and a URL, and it is the URL with `tmpfiles.org/` rewritten once; otherwise the HTTP, rejection or request error |
| JobVideo.DirectLink | image.js:280-283 | `https://tmpfiles.org/<id>` becomes `https://tmpfiles.org/dl/<id>` |
| JobVideo.OnEncoderEnd | image.js:193-227 | after encoding: frames removed, upload attempted, video deleted either way; resolves with the file name and either the direct link or "Upload failed" |
| JobVideo.OnEncoderError | image.js:228-236 | on an encoder error: frames removed, a partial video deleted if present, rejects with the error |
| JobVideo.GenerateJobAlertVideo | image.js:8-243 | a background load error rejects with nothing touched; otherwise frames are written and encoded, both encoder handlers remove the frames, the video never remains, and the outcome is the end or error handler's |
| EnvConfig.OrEmpty | server.js:19-21 | `process.env[key] \|\| ''` is non-empty exactly when the variable is set and non-empty, and is then its value |
| EnvConfig.ConfigPayloadShape | server.js:17-23 | the configuration object has exactly the three keys once each, in order, each the variable's value or `''`, and depends on no other variable |
| EnvConfig.PayloadObjectValues | index.js:11-13 | read as an object, the served configuration has exactly the three keys with those values |
| Server.DownloadUrl | server.js:43-48 | the download URL counts only when the generator resolved with a non-empty one |
| Server.GenerateVideo | server.js:31-106 | status 500 with `success: false` and a non-empty error iff there is no download URL (a rejected generator included); otherwise 200 with `videoUrl`; the upload runs iff both Instagram variables and the caption are truthy; the Instagram calls are exactly the uploader's calls, the reel report carries the uploader's own result or error, and the message matches it; the skipped branch has neither result nor error |
| Server.ReelUsesDownloadUrl | server.js:51-63 | the upload creates its container at `<INSTA_APP_ID>/media` with the download URL, the request's caption and the token, and counts as uploaded iff its last call published successfully |
| Server.ReelOutcomeNeverFailsRequest | server.js:64-97 | with a download URL, whatever Instagram replies, the response is 200 with the same `videoUrl` |
| NetlifyConfig.Handler | netlify/functions/config.js:1-37 | 200 iff the method is exactly `OPTIONS` or `GET`, otherwise 405 with `{"error":"Method not allowed"}`; `OPTIONS` has an empty body, `GET` the configuration object |
| NetlifyConfig.HandlerHeaders | netlify/functions/config.js:3-36 | every response carries the three CORS headers unchanged; only `GET` adds a header, `Content-Type: application/json` |
| NetlifyConfig.GetMatchesServerConfig | netlify/functions/config.js:24-28 | the `GET` body has exactly the three keys, each the variable's value or `''`, as the Express server's `/api/config` |
| NetlifyConfig.MethodIsCaseSensitive | netlify/functions/config.js:9-17 | methods are compared exactly: `get` and `options` get 405 |
| JobPage.MissingConfigsSpec | index.js:36-40 | the missing list names exactly the falsy keys, once each, in the fixed key order, and is empty iff all three are set |
| JobPage.ServedConfigMissing | index.js:36-40 | with the configuration the server sends, a key is missing iff its environment variable is unset or empty |
| JobPage.RemoveMatchesKeepsPlainPrefix | index.js:118 | text before the first backtick passes through the fence removal untouched |
| JobPage.RemoveMatchesShort | index.js:118 | a text shorter than the fence cannot match it |
| JobPage.TrimDropsTrailingNewline | index.js:118 | a trailing newline does not change the trimmed text |
| JobPage.OpeningFenceRemoved | index.js:118 | the first replace deletes the opening ```` ```json ```` and its newline, and nothing else |
| JobPage.ClosingFenceRemoved | index.js:118 | the second replace deletes the closing ```` ``` ```` and an optional newline, and nothing else |
| JobPage.FencedJsonUnwrapped | index.js:118 | a fenced reply, with or without a newline after the closing fence, is cleaned to its trimmed body |
| JobPage.PlainTextOnlyTrimmed | index.js:118 | text without backticks is only trimmed |
| JobPage.ShownValueSpec | index.js:161-170 | a field shows its value when truthy and "Not specified" otherwise; the apply link is a link iff its value is not "Not specified" |
| JobPage.InsertDataProjection | index.js:197-204 | the inserted row has exactly the five job keys and `created_at`, copied from the extracted object, with other keys dropped |
| JobPage.ReplyText | index.js:105-115 | the text is read only from an ok reply with the candidate structure, and is that candidate's text; a thrown request gives its message, a non-ok reply its status, and a missing candidate text an invalid response |
| JobPage.Page.constructor | index.js:1-6 | the configuration starts with three empty keys and the extracted object empty |
| JobPage.Page.LoadConfiguration | index.js:9-22 | an ok reply replaces the configuration and returns true; anything else returns false and keeps it |
| JobPage.Page.CheckConfiguration | index.js:25-50 | a failed load is reported as such; otherwise the missing list is the falsy keys, and all is loaded iff it is empty |
| JobPage.Page.DisplayResults | index.js:136-179 | one row per job field in order, labelled and valued as `ShownValue` says; the section becomes visible |
| JobPage.Page.StoreParsed | index.js:121-124 | an object is stored and shown; `null` is stored and empties the rows; a syntax error changes nothing |
| JobPage.Page.HandleReply | index.js:105-124 | reply errors end the extraction unchanged; otherwise the cleaned text's parse is stored and shown, and a `null` parse empties the shown rows |
| JobPage.Page.ExtractJobInfo | index.js:52-134 | no request when the trimmed message is empty or the Gemini key is falsy; otherwise one request with the key and the trimmed message, then the reply handling, in which a `null` parse empties the shown rows |
| JobPage.Page.InsertToDatabase | index.js:181-237 | refused without the Supabase URL and key, or without extracted data; otherwise posts the projected row with the key headers, reports a non-ok status, and on success clears the form |

## Left out

- Network calls are not modelled. Every `fetch` (Instagram, tmpfiles.org, Gemini, Supabase, `/api/config`) is a reply value passed in as a parameter.
- The child processes are not modelled: ffprobe, ffmpeg and its progress events, and `which`. The encoder's end is an input (`EncoderRun`). So is whether the music file exists.
- Canvas drawing, fonts and PNG encoding are not modelled. A frame file holds the `Scene` it would show.
- JobVideo.GenerateJobAlertVideo: failures of `mkdirSync` (image.js:27) and of `canvas.toBuffer` or `fs.writeFileSync` inside the frame loop (image.js:133-135) are not modelled. In JavaScript they reject through the outer catch (image.js:239-240) and leave every frame written so far on disk; the model assumes the frame loop always completes.
- The `Math.sin` pulse opacity is not modelled, because it is transcendental. Only the window 10 < t < 25 in which the pulse is drawn is kept.
- Wall-clock dependence is replaced by inputs. The date text on the card is a parameter, and the `Date.now()` file name takes its time stamp as a parameter.
- Reel.InstagramReelsUploader.WaitForContainerReady: the clock advances by exactly `checkInterval` per poll. The time a status request takes is not modelled, so the poll count is an upper bound on what the real loop makes.
- Reel.InstagramReelsUploader.WaitForContainerReady: requires `checkInterval > 0`. In JavaScript `Date.now()` also advances while each status request is in flight, so the loop still stops at `maxWaitTime`. The model's clock moves only by `checkInterval`, so with 0 or less it could not bound the number of polls.
- Error message texts are not modelled. `Container failed with status …` and `JSON.stringify` of error bodies become the `ReelError` and `UploadError` variants. Issue texts with `toFixed(2)` become the `Issue` enumeration.
- Server.GenerateVideo: `reelError` carries the uploader's error value, not its `message` text.
- Server.GenerateVideo: the catch branch for an exception thrown by `uploadReel` (server.js:81-89) is not modelled. `uploadReel` catches every error itself (reel.js:167-173), so that branch cannot be reached.
- Server.GenerateVideo: the generator's outcome is an input. A function cannot run the `GenerateJobAlertVideo` method, whose outcomes are stated separately.
- The Express wiring is not modelled: middleware, static files, `/`, `/health`, the 404 and error handlers, and `listen`.
- Logging is not modelled anywhere.
- `eval(r_frame_rate)` is modelled as a `num/den` fraction, not as general expression evaluation.
- Duration and size are values that may be missing. A missing one stands for the NaN of `parseFloat`/`parseInt`, and no rule fires on it.
- Probe records whose fields have the wrong type are not modelled. JavaScript would raise a TypeError on them, for example on a missing `format_name`.
- Timeline: times and opacities are exact reals. IEEE rounding of `frame / 30` and of the easing is not modelled.
- JobVideo.CleanupFrames: files are removed in an arbitrary order, not in the order `readdirSync` lists them.
- Async scheduling is not modelled. Each flow is sequential, so a second request that overlaps a running one (for example in the shared `frames` directory) is outside the model.
- JobPage: the DOM is not modelled. That covers `showError`/`showSuccess` texts, buttons, the loading indicator and the status element's HTML.
- JobPage: the Gemini prompt text is not modelled. The request keeps the key and the trimmed message the prompt embeds.
- JobPage: `JSON.parse` is a parameter. Its results are limited to an object with string values, `null`, or a syntax error. Other JSON values, and non-string field values, are not modelled.
- JobPage.ReplyText: a reply whose candidate has no `parts` or no `text` is treated as an invalid response. In JavaScript it throws a TypeError, which ends the extraction the same way with a different message.
- JobPage.Page.InsertToDatabase: the form is cleared at once rather than 2 seconds later. An insert sent again within those 2 seconds is therefore not modelled.
- NetlifyConfig: bodies are kept as key/value lists, not as the `JSON.stringify` text. The `context` argument is not used.
