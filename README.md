# Convertifile web app — a Dafny model of its conversion core

Convertifile is a browser front end for a file conversion server. A user
drops files on one of four pages: images, audio/video ("media"), documents,
and the GIF tool. The user picks a target format per file and optionally
edits per-file settings in a dialog. Pressing convert then hands the files,
one after the other, to a converter. Each converter does the same three
things:

- it builds a multipart form from the file and its settings, posts it, and
  reads the task id from the reply (`celery_id`);
- it polls the task's status endpoint on a timer until the task completes,
  fails or times out;
- meanwhile it writes the file's row of the page's three parallel arrays:
  status text, progress, and the download descriptor.

This project models that core:

- the polling state machine, shared by the helper and the inlined copies
  (`Polling`);
- the submission step (`Submission`);
- the five form encoders and their converters (`ImageConverter`,
  `VideoConverter`, `AudioConverter`, `DocumentConverter`, `GifConverter`);
- the rules of the three settings dialogs (`ImageSettings`, `VideoSettings`,
  `AudioSettings`, `Codecs`);
- the admission, deletion and conversion run of the batch pages (`Batch`,
  `ImagePage`, `MediaPage`, `DocumentPage`);
- the GIF page and its trim bar (`GifPage`, `GifTrim`).

How the model is built:

- A form is a list of parts (`Form.FormData`). Its meaning is the order of
  its part names and the map `FormData.get` reads, where each name gives
  the value of its first part; `FormData.getAll` gives every value of a
  name in order. Every encoder is proved against a predicate
  stating that meaning.
- The poller is a pure transition function `Polling.Next` on the closure
  state. The class `Polling.Poller` is proved to follow it one timer tick at
  a time, and the lemmas about termination, precedence and fallbacks are
  proved about `Next`.
- The pages are classes whose methods update their fields as the React
  handlers and effects do. The server's answers are parameters: a submit
  reply per job, and a script of status replies per job.

Behaviour the model keeps as written, and states as lemmas:

- After a completed GIF conversion, every later press of convert clears the
  file. The trim times are never put in the GIF form.
- Releasing the start handle seeks to the start time captured when the drag
  began, not to the new one.
- The end handle is not pulled back when the video's duration shrinks.
- A negative time renders as "-1:-5".
- The media page declares a 512 MB audio limit but applies 1 GiB to every
  file.
- The document defaults have no "jpeg" entry, and the image defaults no
  "pdf" entry, so those targets throw with the defaults.
- The video default bitrate "8000" is sent as "8000M".

Integers are unbounded. Trim times are `real`. Video levels are held in
tenths (4.1 is 41). Strings are ASCII for case-folding purposes.

## Model

| member | source | states |
|---|---|---|
| Text.ToLowerIdempotent | src/backendcaller/pollingHelper.ts:156-157 | Lower-casing twice is lower-casing once, so a lower-cased status key or target is stable. |
| Text.ParseIntRoundTrip | src/components/FileManagement/SettingsComponent/AudioSettingsModal.tsx:158-166 | `parseInt` of the text `toString` wrote, followed by any non-digit suffix such as "k", gives back the integer. |
| Text.TenthsToString | src/backendcaller/videoConverter.ts:44-46 | A level in tenths prints with a decimal point exactly when it is not a whole number, as JavaScript prints 4.0 as "4": the text before the point is the whole part in decimal digits, followed by "." and the tenths digit when that digit is not 0. |
| Files.Extension | src/app/imageconverter/page.tsx:171-173 | The extension is the lower-cased end of the name after its last dot: it contains no dot, and unless it is the whole name (a name without a dot), a dot comes right before it. |
| Files.BaseName | src/backendcaller/pollingHelper.ts:90 | The base name is a dot-free prefix of the name, and is all of it when the name has no dot. |
| Files.RemoveAt | src/app/imageconverter/page.tsx:326-329 | Filtering out position k drops exactly that element and keeps the others in order. |
| Files.Without | src/app/imageconverter/page.tsx:174-177 | The list without v holds exactly the elements other than v, each as often as in the list, in the list's order. |
| Files.WithoutAt | src/app/imageconverter/page.tsx:174-177 | A list holding v only at position k loses exactly that position: the elements before it, then those after it. |
| Files.FilterKeepsOrder | src/app/imageconverter/page.tsx:205-208 | A filter keeps the passing elements in the order of the list. |
| Files.FilterCounts | src/app/imageconverter/page.tsx:205-208 | A filter keeps every passing element as often as it occurs, and no failing one. |
| Files.FilterConcat | src/app/imageconverter/page.tsx:205-208 | Filtering two lists joined is joining their filters. |
| Form.WireNamesParse | src/backendcaller/imageConverter.ts:25-68 | Every form field's wire name reads back as that field, so no two fields share a spelling. |
| Form.WireNamesDistinct | src/backendcaller/gifConverter.ts:37-60 | Distinct fields have distinct wire names. |
| Form.SentNames | src/backendcaller/imageConverter.ts:25-36 | `FormData.get` finds a value for exactly the names that were appended. |
| Form.Append | src/backendcaller/imageConverter.ts:25-36 | An append adds one part at the end and never changes the value `FormData.get` already returns for a name. |
| Form.AppendIf | src/backendcaller/videoConverter.ts:40-57 | A conditional append adds its part exactly when the condition holds. |
| Form.AppendIfKeeps | src/backendcaller/audioConverter.ts:68-70 | A conditional part never changes a value `FormData.get` already returns. |
| Form.GetIsFirstOfAll | src/backendcaller/audioConverter.ts:43-71 | `FormData.getAll` holds one value per part of a name, in order; `FormData.get` finds a value exactly when there is one, and it is the first. |
| Form.GetAllAppendIf | src/backendcaller/audioConverter.ts:68-70 | A conditional part adds its value at the end of `getAll` of its own name when the condition holds, and changes no other name's values. |
| Slots.JobArrays.SetStatus | src/backendcaller/pollingHelper.ts:43-49 | The status updater writes position `index` only. |
| Slots.JobArrays.SetProgress | src/backendcaller/pollingHelper.ts:50-56 | The progress updater writes position `index` only. |
| Slots.JobArrays.SetResult | src/backendcaller/pollingHelper.ts:57-63 | The result updater writes position `index` only. |
| Slots.JobArrays.Fill | src/app/imageconverter/page.tsx:374-376 | A run starts with n rows of "In queue...", 0 and an empty result. |
| Polling.StatusKey | src/backendcaller/pollingHelper.ts:156-157 | The switch key is lower case and is empty when neither `status` nor `state` is present. |
| Polling.Next | src/backendcaller/pollingHelper.ts:118-189 | Once the promise is settled a tick changes nothing. Otherwise a tick counts one attempt, or rejects at once without a task id. Past maxRetries it times out, resolving false. The interval stays or becomes twice the configured one. A result is written only when resolving true. |
| Polling.SettledIsFinal | src/backendcaller/pollingHelper.ts:86-102 | A resolved or rejected poller stays as it is, row included, whatever ticks follow. |
| Polling.PollingSettles | src/backendcaller/pollingHelper.ts:125-133 | A poller with a task id settles within maxRetries + 1 ticks, whatever the server answers. |
| Polling.NeverRejectedWithTaskId | src/backendcaller/pollingHelper.ts:119-133 | With a task id the promise only ever resolves; it is never rejected. |
| Polling.MissingTaskIdRejects | src/backendcaller/pollingHelper.ts:119-123 | Without a task id the first tick rejects with "Task ID is missing", counts no attempt and leaves the row alone. |
| Polling.FailingChecksKeepPolling | src/backendcaller/pollingHelper.ts:182-188 | A status endpoint that keeps failing leaves the row alone and counts every attempt. From the sixth attempt on, the interval is doubled. |
| Polling.UnreachableServerTimesOut | src/backendcaller/pollingHelper.ts:125-133 | With the default configuration and an unreachable server, the 21st tick writes "Timed out! Retry later." and resolves false. The interval has backed off to 1000 ms by then. |
| Polling.MetaTakesPrecedence | src/backendcaller/pollingHelper.ts:159-181 | On a handled tick, a truthy `meta.message` is the final status and a truthy `meta.progress` the final progress, whatever the status word. |
| Polling.DefaultsWithoutMeta | src/backendcaller/pollingHelper.ts:86-116 | Without `meta`, each status word writes its fixed text and progress and gives its outcome: completed 100 and resolved true, failed resolved false, processing 50, started 20, pending 10, anything else "Status: x" or "Unknown status". |
| Polling.StatusWordsIgnoreCase | src/backendcaller/pollingHelper.ts:156-157 | Two replies whose status words differ only in case are classified the same. |
| Polling.ProbeOnlyLateAndStatusless | src/backendcaller/pollingHelper.ts:152-154 | The HEAD probe's answer makes a difference only after the sixth attempt and only for a reply without a status. |
| Polling.ProbeCompletes | src/backendcaller/pollingHelper.ts:65-84 | A successful probe resolves true with "Conversion completed!", leaves the progress as it was, and links the result under the task id with the fallback name `<base>.<format>`. |
| Polling.FailureTextVariantsDiffer | src/backendcaller/audioConverter.ts:176 | The helper's `??` and the inlined `\|\|` failure texts differ exactly when `meta.message` is empty and `error` is not. |
| Polling.CompletedName | src/backendcaller/pollingHelper.ts:90-92 | A non-empty `filename` names the download, and `original_name` does when `filename` is absent. An empty `filename` falls through to the fallback name, not to `original_name`. The link is under the result endpoint. |
| Polling.IntervalIsOneOfTwo | src/backendcaller/pollingHelper.ts:182-188 | Over any tick script the interval stays the configured one or twice it. |
| Polling.Poller.constructor | src/backendcaller/pollingHelper.ts:28-40 | A new poller starts at attempt 0 with the configured interval, polling, on the given row. |
| Polling.Poller.Dispatch | src/backendcaller/pollingHelper.ts:164-181 | The status handlers move the row and the outcome as `Handle` and `HandlerOutcome` say, and touch no other row. |
| Polling.Poller.Step | src/backendcaller/pollingHelper.ts:118-189 | One timer tick takes the closure state and the row to `Next` of the old state, and writes no other row. |
| Polling.Poller.Drive | src/backendcaller/pollingHelper.ts:191-192 | A whole session ends in `Run` of the tick script from the start state, with every other row unchanged. |
| Submission.TaskIdOf | src/backendcaller/imageConverter.ts:101-110 | A non-2xx reply yields "Server error: code text". A missing or empty `celery_id` yields "No task ID returned from server". Otherwise the id is the result. |
| Submission.SuccessLeavesLink | src/backendcaller/pollingHelper.ts:86-95 | A poller that resolves true has written a download link under the result endpoint. |
| Submission.JobGuarantees | src/backendcaller/imageConverter.ts:4-131 | A job reports every error on its own row and returns false; a job that returns true leaves a download link; with 21 ticks every submitted job has returned. |
| Submission.SendAndPoll | src/backendcaller/imageConverter.ts:70-131 | After encoding: the encoding error, or "Sending to server", the POST and the poll. The row ends as `AfterEncoding` says, and no other row changes. |
| ImageConverter.ImageHeadMeaning | src/backendcaller/imageConverter.ts:25-36 | The head sends file, target and the two flags in order, plus quality exactly when compression is on, each read back as its setting. |
| ImageConverter.SwitchFieldsMeaning | src/backendcaller/imageConverter.ts:39-68 | A branch that does not throw appends exactly its names, and `FormData.get` returns their values besides everything it returned before. |
| ImageConverter.DefaultsMeaning | src/backendcaller/imageConverter.ts:61-67 | An unnamed target sends optimize false, both RLE flags true, avif speed 6 and page size A4, in that order. |
| ImageConverter.ImageFormMeaning | src/backendcaller/imageConverter.ts:18-68 | The image form is what `ImageFormSpec` says: ordered names, each read as its setting, or the TypeError of a missing entry or field. |
| ImageConverter.AppendSwitchFields | src/backendcaller/imageConverter.ts:39-68 | The switch, statement by statement, builds `SwitchFields` of the lower-cased target's branch. |
| ImageConverter.EncodeImageForm | src/backendcaller/imageConverter.ts:24-68 | The appends build the form `ImageFormSpec` describes. |
| ImageConverter.ConvertFile | src/backendcaller/imageConverter.ts:4-131 | The row ends as the job of the image form says and no other row changes. The method returns true only with a download link. |
| VideoConverter.VideoHeadMeaning | src/backendcaller/videoConverter.ts:25-34 | The head sends file, target and metadata flag, the codec when non-empty and the frame rate whenever set, each read as its setting. |
| VideoConverter.EntryFieldsMeaning | src/backendcaller/videoConverter.ts:40-57 | The entry sends profile, level, CRF, speed and bitrate in that order, each only when set; the level as its `toString`, the bitrate with "M" appended. |
| VideoConverter.VideoFormMeaning | src/backendcaller/videoConverter.ts:25-58 | The video form is what `VideoFormSpec` says: ordered names, every name once, each read as its setting. |
| VideoConverter.AppendEntryFields | src/backendcaller/videoConverter.ts:40-57 | The format-specific appends, one by one, build the entry fields. |
| VideoConverter.EncodeVideoForm | src/backendcaller/videoConverter.ts:24-58 | The appends build the form `VideoFormSpec` describes. |
| VideoConverter.ConvertFile | src/backendcaller/videoConverter.ts:18-64 | The row ends as the job of the video form says and no other row changes. |
| AudioConverter.AudioHeadMeaning | src/backendcaller/audioConverter.ts:43-52 | The head sends file, target, metadata flag, then channels and sample rate when set, each read as its setting. |
| AudioConverter.EntryFieldsMeaning | src/backendcaller/audioConverter.ts:58-71 | The entry appends bitrate, compression level (0 included), lossless and the entry's sample rate, each only when set. `FormData.get` returns each, except a sample rate it already returns. |
| AudioConverter.AudioFormMeaning | src/backendcaller/audioConverter.ts:43-71 | The audio form is what `AudioFormSpec` says: the names in order, the first value of each, and every `sample_rate` value in order, the top-level rate before the entry's. |
| AudioConverter.AudioFormPartsMeaning | src/backendcaller/audioConverter.ts:43-71 | The names in order: file, target, metadata flag, channels and sample rate when set, then the entry's set fields; each name's first value is its setting. |
| AudioConverter.AudioFormRates | src/backendcaller/audioConverter.ts:43-71 | The `sample_rate` values sent are the top-level rate, then the entry's rate, each only when set. |
| AudioConverter.HeadRatesSent | src/backendcaller/audioConverter.ts:43-52 | The head's only `sample_rate` value is the top-level rate, when set. |
| AudioConverter.EntryRatesSent | src/backendcaller/audioConverter.ts:58-71 | The entry block puts its own rate, when set, after the `sample_rate` values already sent. |
| AudioConverter.EntryRateAppended | src/backendcaller/audioConverter.ts:68-70 | An entry with a sample rate adds one more `sample_rate` part. |
| AudioConverter.EntryRateKept | src/backendcaller/audioConverter.ts:58-71 | The entry block never changes the `sample_rate` value `FormData.get` already returns. |
| AudioConverter.HeadRateOnce | src/backendcaller/audioConverter.ts:43-52 | A set top-level sample rate is exactly one `sample_rate` part of the head. |
| AudioConverter.SampleRateSentTwice | src/backendcaller/audioConverter.ts:43-71 | With a top-level rate and an entry rate both set, `sample_rate` is sent twice: the top-level rate first and the entry's rate last. |
| AudioConverter.TopLevelRateWins | src/backendcaller/audioConverter.ts:43-71 | A set top-level sample rate is the one `FormData.get` returns, whatever the entry holds. |
| AudioConverter.AppendEntryFields | src/backendcaller/audioConverter.ts:58-71 | The format-specific appends, one by one, build the entry fields. |
| AudioConverter.EncodeAudioForm | src/backendcaller/audioConverter.ts:42-71 | The appends build the form `AudioFormSpec` describes. |
| AudioConverter.ConvertFile | src/backendcaller/audioConverter.ts:18-290 | The row ends as the inlined poller's job says and no other row changes. |
| DocumentConverter.DocFormMeaning | src/backendcaller/documentConverter.ts:43-62 | The document form is what `DocFormSpec` says: file and target, then the branch's fields, or the TypeError of a missing entry. |
| DocumentConverter.DpiSentIffKey | src/backendcaller/documentConverter.ts:48-61 | For jpeg, webp, png and bmp, when the form builds, `dpi` is sent exactly when the target, as given, is a key of the settings. |
| DocumentConverter.MissingEntryThrows | src/backendcaller/documentConverter.ts:54 | A jpeg or webp target without an entry throws on reading `quality`. |
| DocumentConverter.OtherTargetsSendHeadOnly | src/backendcaller/documentConverter.ts:43-62 | Any other target sends only file and target. |
| DocumentConverter.UpperCaseTargetThrows | src/backendcaller/documentConverter.ts:48-54 | "JPEG" takes the jpeg branch, but the lookup uses the target as given and misses the "jpeg" key, so it throws on `quality`. |
| DocumentConverter.AppendSwitchFields | src/backendcaller/documentConverter.ts:48-62 | The switch, statement by statement, builds the branch's fields. |
| DocumentConverter.EncodeDocForm | src/backendcaller/documentConverter.ts:43-62 | The appends build the form `DocFormSpec` describes. |
| DocumentConverter.UndefinedTargetFails | src/backendcaller/documentConverter.ts:48 | A file with no target (`undefined`) ends its row with the TypeError of `toLowerCase` and reports failure, with progress and result untouched. |
| DocumentConverter.ConvertFile | src/backendcaller/documentConverter.ts:18-281 | The row ends as the inlined poller's job says and no other row changes. |
| Codecs.Fallback | src/components/FileManagement/SettingsComponent/VideoSettingsModal.tsx:236-237 | The codec kept is supported by the target, or the target has no codecs and the codec is unchanged. |
| Codecs.FallbackIdempotent | src/components/FileManagement/SettingsComponent/AudioSettingsModal.tsx:128-133 | Applying the rule to its own result changes nothing. |
| AudioSettings.CodecDefault | src/components/FileManagement/SettingsComponent/AudioSettingsModal.tsx:127-133 | Only the codec can change, and it becomes one the lower-cased target supports when it has any. |
| AudioSettings.CodecDefaultIdempotent | src/components/FileManagement/SettingsComponent/AudioSettingsModal.tsx:127-133 | Running the effect twice is running it once. |
| AudioSettings.SectionControls | src/components/FileManagement/SettingsComponent/AudioSettingsModal.tsx:86-92 | Among sectioned formats, all but flac have a bitrate, and compression belongs to exactly mp3, ogg, opus and flac. |
| AudioSettings.WithEntry | src/components/FileManagement/SettingsComponent/AudioSettingsModal.tsx:160-169 | An entry edit replaces only the entry under its format. |
| AudioSettings.ShownBitrate | src/components/FileManagement/SettingsComponent/AudioSettingsModal.tsx:158 | The slider shows `parseInt` of the stored text, or 192 when it is empty or missing. |
| AudioSettings.SetBitrate | src/components/FileManagement/SettingsComponent/AudioSettingsModal.tsx:159-170 | The edit stores "<val>k" and keeps everything else. |
| AudioSettings.BitrateRoundTrip | src/components/FileManagement/SettingsComponent/AudioSettingsModal.tsx:158-166 | After a bitrate edit the slider shows the value it was set to. |
| AudioSettings.DefaultCompressionInRange | src/components/FileManagement/SettingsComponent/AudioSettingsModal.tsx:331-338 | Each format's default compression level lies within its slider. |
| AudioSettings.ShownCompression | src/components/FileManagement/SettingsComponent/AudioSettingsModal.tsx:187 | The slider shows the stored level (0 included), else the format's default. |
| AudioSettings.SetCompression | src/components/FileManagement/SettingsComponent/AudioSettingsModal.tsx:188-199 | The edit stores the level and keeps everything else. |
| AudioSettings.OggCompressionNeedsOpus | src/components/FileManagement/SettingsComponent/AudioSettingsModal.tsx:331-338 | For ogg the slider appears with libopus, but not with libvorbis, which the codec effect picks. |
| AudioSettings.ChooseSampleRate | src/components/FileManagement/SettingsComponent/AudioSettingsModal.tsx:235-259 | A rate replaces the setting. "Auto" leaves the settings unchanged, so a chosen rate cannot be cleared. |
| VideoSettings.EffectiveCodec | src/components/FileManagement/SettingsComponent/VideoSettingsModal.tsx:243-245 | The dialog's codec is supported by the target, or is empty when the target has none. |
| VideoSettings.CodecDefault | src/components/FileManagement/SettingsComponent/VideoSettingsModal.tsx:233-239 | Only the codec can change, and it becomes one the target supports when it has any. |
| VideoSettings.CodecDefaultSettles | src/components/FileManagement/SettingsComponent/VideoSettingsModal.tsx:233-245 | After the effect the dialog's codec is the stored one, and a second run changes nothing. |
| VideoSettings.ReduceNearest | src/components/FileManagement/SettingsComponent/VideoSettingsModal.tsx:479-481 | The fold keeps a level no farther from the value than any level it has passed, and changes only to a strictly nearer one. |
| VideoSettings.SnapLevel | src/components/FileManagement/SettingsComponent/VideoSettingsModal.tsx:477-489 | The snapped level is one of the levels, none is nearer, and it is the first of the nearest. |
| VideoSettings.SnapLevelKeepsLevels | src/components/FileManagement/SettingsComponent/VideoSettingsModal.tsx:479-481 | A value that is a level snaps to itself. |
| VideoSettings.WithEntry | src/components/FileManagement/SettingsComponent/VideoSettingsModal.tsx:270-277 | An entry edit replaces only the entry under its format. |
| VideoSettings.SetLevel | src/components/FileManagement/SettingsComponent/VideoSettingsModal.tsx:477-489 | The level edit stores the snapped level as a number and keeps everything else. |
| VideoSettings.SetBitrate | src/components/FileManagement/SettingsComponent/VideoSettingsModal.tsx:270-277 | The bitrate edit stores the number and keeps everything else. |
| VideoSettings.SetCrf | src/components/FileManagement/SettingsComponent/VideoSettingsModal.tsx:290-297 | The CRF edit stores the value and keeps everything else. |
| VideoSettings.ShownBitrate | src/components/FileManagement/SettingsComponent/VideoSettingsModal.tsx:261 | The slider shows the stored bitrate when it is truthy, and a non-zero default otherwise. |
| VideoSettings.ShownCrf | src/components/FileManagement/SettingsComponent/VideoSettingsModal.tsx:289 | The slider shows the stored CRF, else the codec's default. |
| VideoSettings.CrfDefaults | src/components/FileManagement/SettingsComponent/VideoSettingsModal.tsx:107-131 | libx264 defaults to 23, libx265 to 28 and libaom-av1 to 32. |
| VideoSettings.OnlyWebmLacksProfile | src/components/FileManagement/SettingsComponent/VideoSettingsModal.tsx:496-526 | Among sectioned formats only webm has no profile, level or CRF controls. |
| VideoSettings.FpsChoice | src/components/FileManagement/SettingsComponent/VideoSettingsModal.tsx:368-372 | Null stays null and a number stays that number. Text becomes its `parseInt`, with NaN and 0 read as null. |
| VideoSettings.FpsOptionStored | src/components/FileManagement/SettingsComponent/VideoSettingsModal.tsx:344-372 | Picking a frame-rate option stores exactly that option's rate, or null for "Auto". |
| VideoSettings.NoFpsOptionSelected | src/components/FileManagement/SettingsComponent/VideoSettingsModal.tsx:341-365 | The dropdown compares each option's number or null with the label text of the stored rate, so no frame-rate option is ever marked as selected. |
| ImageSettings.OneControlPerFormat | src/components/FileManagement/SettingsComponent/ImageSettingsModal.tsx:279-300 | Each format with a section has exactly one format-specific control. |
| ImageSettings.WithEntry | src/components/FileManagement/SettingsComponent/ImageSettingsModal.tsx:126-136 | An entry edit replaces only the entry under its format. |
| ImageSettings.SetOptimize | src/components/FileManagement/SettingsComponent/ImageSettingsModal.tsx:115-143 | The optimize edit stores the flag and keeps everything else. |
| ImageSettings.SetFormatCompression | src/components/FileManagement/SettingsComponent/ImageSettingsModal.tsx:145-188 | The RLE edit stores the flag and keeps everything else. |
| ImageSettings.SetSpeed | src/components/FileManagement/SettingsComponent/ImageSettingsModal.tsx:190-218 | The speed edit stores the value and keeps everything else. |
| ImageSettings.SetPageSize | src/components/FileManagement/SettingsComponent/ImageSettingsModal.tsx:252-270 | The page size edit stores the size and keeps everything else. |
| ImageSettings.QualitySlider | src/components/FileManagement/SettingsComponent/ImageSettingsModal.tsx:352-380 | The slider is offered only where compression is supported. It runs from 1 to 100, shows the quality, and is disabled exactly when compression is off. |
| Batch.FilterAdmissionMeaning | src/app/imageconverter/page.tsx:189-240 | Past the limit nothing is taken. Within it exactly the allowed files that fit are taken, in the order of the drop, and the notifications count the rejects for type, then size. |
| Batch.Page.constructor | src/app/imageconverter/page.tsx:49-72 | A page starts empty, with both run flags off. |
| Batch.Page.Take | src/app/imageconverter/page.tsx:222-236 | The admission's files are appended with their targets and settings, and its notifications are raised. |
| Batch.Page.Delete | src/app/imageconverter/page.tsx:319-338 | File k leaves files, targets, settings and statuses. Progress and results keep their length. |
| Batch.Page.ResetSettings | src/app/imageconverter/page.tsx:101-103 | Every file gets a fresh copy of the defaults. |
| Batch.Page.DeleteThenReset | src/app/imageconverter/page.tsx:319-338 | A deletion that removes a file also resets every remaining file's settings. |
| Batch.Page.ChangeFormat | src/app/imageconverter/page.tsx:309-316 | Only file i's target changes. |
| Batch.Page.Clear | src/app/imageconverter/page.tsx:296-306 | Files, targets, settings and statuses are dropped; progress and results stay. |
| Batch.Page.Reset | src/app/imageconverter/page.tsx:359-371 | Once a run is complete, a press drops everything and clears both flags. |
| Batch.Page.BeginRun | src/app/imageconverter/page.tsx:373-376 | Every row is queued and the page is converting. |
| Batch.Page.EndRun | src/app/imageconverter/page.tsx:407 | The run is complete; `isConverting` is left set. |
| ImagePage.FormatsFor | src/app/imageconverter/page.tsx:174-177 | Every target except the file's own extension is offered, in the order of the target list, and the list is never empty. |
| ImagePage.FirstTarget | src/app/imageconverter/page.tsx:227 | A new file starts as jpg, or as png when it is a jpg. |
| ImagePage.UnlistedExtensionKeepsAll | src/app/imageconverter/page.tsx:174-177 | A file whose extension is no target is offered the whole list in order. |
| ImagePage.AdmissionRules | src/app/imageconverter/page.tsx:189-240 | More than ten files refuses the whole add; within the limit exactly the images of at most 200 MiB are taken, in the order of the drop. |
| ImagePage.FirstTargets | src/app/imageconverter/page.tsx:225-228 | Each taken file gets its first target. |
| ImagePage.AddFiles | src/app/imageconverter/page.tsx:189-288 | The taken files are appended with their first targets. Since the file count changed, every file's settings reset to the defaults. |
| ImagePage.HandleConvert | src/app/imageconverter/page.tsx:358-408 | A press after a complete run resets the page. Otherwise row i ends as file i's image job, and the run ends complete. |
| ImagePage.RunJobs | src/app/imageconverter/page.tsx:379-404 | Job i runs on row i from a queued row, and the rows of the other jobs are kept. |
| ImagePage.DefaultPdfThrows | src/app/imageconverter/page.tsx:34-46 | With the default settings a pdf target throws on `page_size` before anything is sent. |
| MediaPage.FormatsFor | src/app/mediaconverter/page.tsx:212-221 | A file is offered the targets of its own kind except its extension, in that kind's list order, and nothing when it is neither audio nor video. |
| MediaPage.FirstTarget | src/app/mediaconverter/page.tsx:287 | Video starts as mp4 (webm for an mp4), audio as mp3 (ogg for an mp3). |
| MediaPage.AcceptedOfOneKind | src/app/mediaconverter/page.tsx:229-297 | What an add takes comes from the add, is of one kind (the page's when it has one), and fits in 1 GiB. |
| MediaPage.JoinsPageKind | src/app/mediaconverter/page.tsx:229-297 | On a page of one kind an add takes exactly its files of that kind that fit, in the order of the drop. A file of the other kind refuses the add with a mixing notice. |
| MediaPage.AcceptedInOrder | src/app/mediaconverter/page.tsx:229-297 | What an add takes keeps the order of the drop. |
| MediaPage.FirstFileSetsKind | src/app/mediaconverter/page.tsx:229-297 | On an empty page the add's first media file sets the kind. |
| MediaPage.LargeAudioAccepted | src/app/mediaconverter/page.tsx:224-226 | A 600 MiB audio file is taken; the 512 MB audio limit is not applied. |
| MediaPage.AdmissionKeepsOneKind | src/app/mediaconverter/page.tsx:229-297 | An add keeps a page of one kind a page of one kind. |
| MediaPage.RemoveKeepsOneKind | src/app/mediaconverter/page.tsx:397-416 | A deletion keeps a page of one kind a page of one kind. |
| MediaPage.FirstTargets | src/app/mediaconverter/page.tsx:285-288 | Each taken file gets its first target. |
| MediaPage.KindDefaults | src/app/mediaconverter/page.tsx:134-142 | Every file gets the defaults of the page's kind. |
| MediaPage.H264EntrySent | src/app/mediaconverter/page.tsx:62-72 | Settings whose entry is the H.264 default send level "4.0" and bitrate "8000M". |
| MediaPage.DefaultMp4Fields | src/app/mediaconverter/page.tsx:62-72 | An mp4 job with the video defaults sends bitrate "8000M". |
| MediaPage.SettingsEffect | src/app/mediaconverter/page.tsx:134-142 | A page with a kind resets every file's settings to that kind's defaults; an empty page is left alone. |
| MediaPage.AddFiles | src/app/mediaconverter/page.tsx:229-367 | The taken files are appended and settings reset to the page's kind. The page stays of one kind. |
| MediaPage.DeleteFile | src/app/mediaconverter/page.tsx:397-416 | File k leaves; the remaining files' settings reset. The page stays of one kind. |
| MediaPage.HandleConvert | src/app/mediaconverter/page.tsx:435-497 | A press after a complete run resets the page. Otherwise row i ends as file i's job with the converter of the page's kind. |
| MediaPage.RunJobs | src/app/mediaconverter/page.tsx:456-493 | Job i runs on row i from a queued row, and the rows of the other jobs are kept. |
| DocumentPage.FormatsFor | src/app/documentconverter/page.tsx:182-186 | A file is offered its format's conversions except its own extension, in the conversion list's order, or none. |
| DocumentPage.FirstTargets | src/app/documentconverter/page.tsx:22-27 | A pdf starts as txt, a docx or txt as pdf, and any other file with no target. |
| DocumentPage.AdmissionRules | src/app/documentconverter/page.tsx:194-245 | More than fifteen files refuses the whole add. Within the limit exactly the allowed non-image files of at most 100 MiB are taken, in the order of the drop. |
| DocumentPage.FirstTargetsOf | src/app/documentconverter/page.tsx:230-233 | Each taken file gets its first target. |
| DocumentPage.DefaultJpegThrows | src/app/documentconverter/page.tsx:36-43 | A jpeg target with the defaults throws on `quality`: the defaults key the entry "jpg". |
| DocumentPage.AddFiles | src/app/documentconverter/page.tsx:194-294 | The taken files are appended with their first targets and every file's settings reset. |
| DocumentPage.HandleConvert | src/app/documentconverter/page.tsx:364-414 | A press after a complete run resets the page. Otherwise row i ends as file i's document job. |
| DocumentPage.RunJobs | src/app/documentconverter/page.tsx:385-410 | Job i runs on row i from a queued row, and the rows of the other jobs are kept. |
| GifConverter.GifHeadMeaning | src/backendcaller/gifConverter.ts:37-47 | The head sends file, target, metadata flag, codec "gif", frame rate and quality, each read as its setting. |
| GifConverter.GifFormMeaning | src/backendcaller/gifConverter.ts:37-60 | The GIF form is what `GifFormSpec` says: width and height only when non-zero, then the three flags as "true"/"false". |
| GifConverter.TrimTimesNotSent | src/backendcaller/gifConverter.ts:37-60 | Settings differing only in trim times encode to the same form. |
| GifConverter.EncodeGifForm | src/backendcaller/gifConverter.ts:36-60 | The appends build the form `GifFormSpec` describes. |
| GifConverter.ConvertFile | src/backendcaller/gifConverter.ts:16-123 | The row ends as the job of the GIF form says and no other row changes. |
| GifPage.CheckRules | src/app/giftool/page.tsx:113-141 | A file is taken exactly when it is a video, at most 250 MiB, and probed at most 60 s long. The notices come in that order of tests. |
| GifPage.GifPage.constructor | src/app/giftool/page.tsx:22-45 | The page starts with no file, the default settings and one empty row. |
| GifPage.GifPage.ValidateAndAdd | src/app/giftool/page.tsx:92-152 | A passing file replaces the current one with the default settings. A file failing the type or size test only raises its notice. A video over 60 s raises its notice, but its probed duration has already replaced the page's duration, which the loaded file's trim bar then uses. |
| GifPage.GifPage.ClearFile | src/app/giftool/page.tsx:159-171 | The file, its settings and duration are dropped and the row emptied; the trim and the run flags stay. |
| GifPage.GifPage.HandleTrimChange | src/app/giftool/page.tsx:189-192 | Only the trim times change. |
| GifPage.GifPage.HandleConvert | src/app/giftool/page.tsx:195-248 | With no file nothing happens. After a complete run the file is cleared. Otherwise the job runs and the run ends complete. |
| GifPage.GifPage.Convert | src/app/giftool/page.tsx:204-247 | The settings are handed over with the trim times, falling back to the page's. The row ends as the GIF job. |
| GifPage.RunJob | src/app/giftool/page.tsx:214-238 | The adapters' single row ends as the GIF job of the settings without the trim times. |
| GifPage.ReportTrim | src/components/FileManagement/GifFileInstruction.tsx:56-70 | The page's trim becomes the bar's. |
| GifPage.ConvertClick | src/components/FileManagement/GifFileInstruction.tsx:150-152 | A press hands over the bar's times, and a job runs exactly when there is a file and no complete run. |
| GifPage.NextVideoAfterCompletion | src/app/giftool/page.tsx:196-202 | After a complete run, a newly taken video is dropped by the next press. |
| GifTrim.Fraction | src/components/FileManagement/GifFileInstruction.tsx:119 | The mouse position is clamped to [0, 1]. |
| GifTrim.ClampStartNearest | src/components/FileManagement/GifFileInstruction.tsx:123 | The new start is the point of [0, end − 0.1] nearest the mouse's time, or 0 when that interval is empty. |
| GifTrim.ClampEndNearest | src/components/FileManagement/GifFileInstruction.tsx:127 | The new end is the point of [start + 0.1, duration] nearest the mouse's time, or the duration when that interval is empty. |
| GifTrim.PadStart2 | src/components/FileManagement/GifFileInstruction.tsx:75 | Text shorter than two characters is left-padded with "0"; longer text is kept. |
| GifTrim.FormatTimeParts | src/components/FileManagement/GifFileInstruction.tsx:72-76 | For a non-negative time, minutes and seconds recompose the whole seconds, with 0 ≤ seconds < 60. |
| GifTrim.FormatTimeIsClock | src/components/FileManagement/GifFileInstruction.tsx:72-76 | A non-negative time prints as m:ss of its whole seconds. |
| GifTrim.NegativeTimeText | src/components/FileManagement/GifFileInstruction.tsx:72-76 | −5 s prints as "-1:-5". |
| GifTrim.TrimBar.constructor | src/components/FileManagement/GifFileInstruction.tsx:26-30 | The bar starts at 0 to the duration, not dragging or playing. |
| GifTrim.TrimBar.DurationChanged | src/components/FileManagement/GifFileInstruction.tsx:51-55 | An end of 0 takes a positive duration. An end beyond a shrunk duration is kept. |
| GifTrim.TrimBar.MouseDown | src/components/FileManagement/GifFileInstruction.tsx:110-115 | The drag starts on a handle, capturing the start time and playing flag of that moment. |
| GifTrim.TrimBar.MouseMove | src/components/FileManagement/GifFileInstruction.tsx:115-130 | The dragged handle moves to its clamped point. The order of start and end, and the 0.1 s gap, are preserved. |
| GifTrim.TrimBar.MouseUp | src/components/FileManagement/GifFileInstruction.tsx:132-148 | After a start drag the video seeks to the start captured at mouse-down. Playback captured as running is paused, and the drag ends. |
| GifTrim.TrimBar.TimeUpdate | src/components/FileManagement/GifFileInstruction.tsx:102-108 | Reaching the end pauses and rewinds to the start, so with the gap the current time is before the end. |
| GifTrim.TrimBar.PlayPressed | src/components/FileManagement/GifFileInstruction.tsx:76-100 | While not dragging, play toggles: pause, or seek to the start and play when the play succeeds. |

## Left out

- Network I/O is out of the model. `fetch`, timers (`setInterval`, the 300 ms delays between files, the trim debounce) and `console.log` are not modelled; the server's answers are parameters.
- Rendering, CSS, drag highlighting, dropdown focus handling, the notification container's auto-removal and notification ids are not modelled. Notifications are kept as data, not as text.
- Concurrency between React state updates is not modelled; each updater is applied as soon as it is called.
- `handleOpenSettings`, `handleApplySettings` and `tempSettings` on all four pages are not modelled: they copy settings between the page and the dialog without checking anything.
- DocSettingsModal and GifSettingsModal are not modelled; they are plain field editors without rules of their own.
- The page-level `catch` around each conversion call is not modelled: the converters catch every error themselves and never throw.
- `URL.createObjectURL` and the video metadata probe are not modelled; the probed duration is an input of `GifPage.GifPage.ValidateAndAdd`, and a `NaN` duration is not modelled.
- `formatFileSize` and the size text shown in the dialogs are not modelled.
- Polling.Meta: the server's `meta.progress` is a JavaScript number, but the model takes it as an integer. A fractional value is not modelled: it would be written to the row as is, and a value between 0 and 1 is truthy. NaN is not modelled either: it is falsy, so the status word's fixed progress would replace it.
- Polling.Next, Polling.SettledIsFinal, Polling.Poller.Step: each tick's status request and its reply are one step. In the code, `setInterval` fires again while an earlier request is still pending, and the first `checkStatus` runs beside the first interval. A reply still in flight when the promise settles still runs the switch and can overwrite the row: a late "processing" after completion, or a "completed" after the timeout. Such overlapping checks are not modelled.
- AudioConverter.TopLevelRateWins states what `FormData.get` returns on the client. Which of two `sample_rate` parts the conversion server uses is not part of this model; `AudioConverter.AudioFormSpec` gives both values in order.
- Text.ParseInt does not skip leading white space or read a `0x` prefix as `parseInt` does. The texts the model parses never start with either.
- GifPage.GifPage.Convert: `handleConvert` clears the result with `setConversionResult(null)` before the job, and a failed job leaves it so; the model writes the empty download descriptor for that null.
- GifPage.RunJob: the page's array adapters are modelled as writes at position 0 of a one-row job table.
- ImagePage.HandleConvert, MediaPage.HandleConvert, DocumentPage.HandleConvert: a job whose poller is still polling when its tick script ends is treated as finished, and the next file starts.
- Batch.Page.ChangeFormat requires an existing index; the source writes past the end of the array for any other index, which the page never does.
- MediaPage.AddFiles, MediaPage.DeleteFile, MediaPage.HandleConvert require the page invariant `MediaValid` (lists aligned, one kind), which every operation of the page preserves.
- GifTrim.TrimBar.MouseMove and GifTrim.TrimBar.MouseUp: the branches where the progress bar or the video element is not mounted are not modelled.
- The React `key` props, the theme context, the navigation bar and the landing page are outside the conversion core.
