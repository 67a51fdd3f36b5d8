# AI job reconciler and edge helpers, in Dafny

This project models the back end of an app that turns text prompts into 3D assets. The back
end is a set of Supabase edge functions. An AI job advances through the stages
PREVIEW → REFINE → REMESH at one of two providers, Meshy or Tripo. Each stage is a provider
task. Three reconcilers read a job's current task and move the job on:

- the Meshy poller;
- the Meshy webhook;
- the Tripo poller.

Moving a job on means finishing it, failing or cancelling it with a credit refund, resuming a
task created earlier, or creating the next stage's task. The Tripo dispatcher starts a job's
preview task. The model also covers the helpers around these handlers:
- request authentication;
- the asset materializer, which copies files into the storage bucket;
- job creation;
- the Roblox OAuth helper (PKCE base64url, configuration precedence, the token decision);
- the Roblox publish and publish-status handlers (multipart body, creator ids, outcome);
- the webhook-secret issuer;
- the asset-fetch access rule.

Each handler is a pure function from a `World` and the answers of the outside world to an
`Outcome`. The `World` holds the job row, the event log, refund calls, provider calls, asset
writes and uploads. The `Outcome` is the new world plus the HTTP reply. The world's answers
are supplied as parameters: the provider's responses, created task ids, download responses,
upload errors, the errors of the dispatcher's job update and of the asset-row update, signed
URLs, random bytes and the current time. The poll and webhook handlers' own job updates are
applied as accepted. Beside each
reconciler function sits a method on the `Jobs.Backend` class. The method performs the same
effects one call at a time and is proved to end in the function's state. The property lemmas
are stated about the functions. `RunProps` folds any sequence of handler runs over one job. It
proves a creation/refund budget, monotone stages and that terminal jobs are final.

Files, each one module: `wrappers`, `text`, `json` (JavaScript reading rules), `storage`,
`auth`, `jobs`, `reconcile` (steps shared by the reconcilers), `meshy_config`, `meshy`,
`meshy_props`, `tripo_config`, `tripo`, `tripo_props`, `run_props`, `job_create`,
`roblox_oauth`, `roblox_publish`, `roblox_publish_status`, `webhook_secret`, `asset_fetch`.

## Model

| member | source | states |
|---|---|---|
| Auth.AssertWebhookSecret | supabase/functions/_shared/auth.ts:44-51 | open when no secret is configured; otherwise true exactly when the header equals the secret |
| Auth.AllowAssetFetch | supabase/functions/_shared/auth.ts:53-60 | closed when no key is configured; otherwise true exactly when the header equals the key |
| Auth.AuthenticateRequest | supabase/functions/_shared/auth.ts:9-42 | internal exactly when the internal key matches (the configured one, or else the stored one); then no user; otherwise a user exactly when an Authorization header is present and the token service returned a user, and that user |
| Auth.EnvInternalKeyWins | supabase/functions/_shared/auth.ts:12-15 | a header equal to the configured internal key is the internal service |
| Auth.StoredKeyIgnoredWhenConfigured | supabase/functions/_shared/auth.ts:16-27 | with a key configured, the stored key makes no difference, and a wrong header falls through as if absent |
| Auth.NoAuthorizationNoUser | supabase/functions/_shared/auth.ts:30-33 | without a key match and without an Authorization header nobody is authenticated, whatever the token service says |
| Storage.ExtensionIsRegexGroup | supabase/functions/_shared/storage.ts:24-28 | the extension model is exactly the capture group of `/\.([a-zA-Z0-9]+)$/`, lower-cased |
| Storage.InferContentTypeByExtension | supabase/functions/_shared/storage.ts:12-22 | the suffix chain of `inferContentType` equals a table lookup on the URL's extension, with the fallback for unknown or missing extensions |
| Storage.SuffixTestIsExtension | supabase/functions/_shared/storage.ts:12-22 | for a dotted lower-case extension, the case-insensitive suffix test and the extracted extension agree |
| Storage.QueryStringDefeatsContentType | supabase/functions/_shared/storage.ts:12-22 | `inferContentType` looks at the whole URL, so a PNG URL with a query string gets the fallback |
| Storage.FileExtensionStripsQuery | supabase/functions/_shared/storage.ts:24-28 | `fileExtension` drops the query string and lower-cases the extension |
| Storage.FileExtensionFallback | supabase/functions/_shared/storage.ts:24-28 | a URL without an extension gets the fallback |
| Storage.DownloadUrl | supabase/functions/_shared/storage.ts:30-44 | succeeds exactly when the response is ok and neither its content-length nor its body length exceeds the bound (NaN exceeds nothing); then it returns the body, which fits a numeric bound |
| Storage.MaxBytes | supabase/functions/_shared/storage.ts:74-75 | the corrected bound: at least 1 MiB, `maxMb` MiB for a numeric setting, 50 MiB otherwise |
| Storage.NonNumericLimitAcceptsAnySize | supabase/functions/_shared/storage.ts:74-75 | as written, `ASSET_MAX_MB="50MB"` gives a NaN bound, and a 200 MiB body without content-length is accepted |
| Storage.CorrectedLimitHolds | supabase/functions/_shared/storage.ts:30-44 | with the corrected bound, every accepted download fits it, whatever the setting |
| Storage.PersistSucceeds | supabase/functions/_shared/storage.ts:62-116 | `persistRemoteAssets` succeeds exactly when no channel with a URL fails to download or upload |
| Storage.PersistPaths | supabase/functions/_shared/storage.ts:76-115 | on success, the returned paths are exactly `<user>/<asset>/<stem>.<ext>`, one for each channel with a URL |
| Storage.StoredPathsAreExpected | supabase/functions/_shared/storage.ts:76-115 | the stored paths equal the expected paths whenever the run succeeds |
| Storage.PersistFits | supabase/functions/_shared/storage.ts:82-111 | every file uploaded fits the size bound |
| Storage.PersistFromSucceeds | supabase/functions/_shared/storage.ts:79-115 | channels are handled in order, and the first failure aborts the rest |
| Storage.PersistFromPaths | supabase/functions/_shared/storage.ts:79-115 | every channel stored before the end has its path added |
| Storage.PersistFromFits | supabase/functions/_shared/storage.ts:79-115 | uploads made before an abort still fit the bound |
| Storage.StoreChannel | supabase/functions/_shared/storage.ts:79-85 | one channel's block: its download and upload equal the channel step of the specification |
| Storage.RecordStep | supabase/functions/_shared/storage.ts:84 | records the step's path and upload, so the running state is the specification's |
| Storage.PersistRemoteAssets | supabase/functions/_shared/storage.ts:62-116 | the five channel blocks, run in sequence, end in `Persist`'s outcome and uploads |
| Jobs.MergeResult | supabase/functions/meshy-poll/index.ts:48-50 | the patch's keys win, and every other key of the old result payload is kept (a null payload counts as empty) |
| Jobs.TargetPolycount | supabase/functions/meshy-poll/index.ts:72-97 | the section's number, else the payload's top-level number, else 3500 |
| Jobs.CreatesAppend | supabase/functions/meshy-poll/index.ts:341-344 | logging a create call adds one to the creation count; any other call adds none |
| Jobs.Backend.UpdateJob | supabase/functions/meshy-poll/index.ts:272-278 | the job row becomes the update applied to it; nothing else changes |
| Jobs.Backend.LogEvent | supabase/functions/meshy-poll/index.ts:280-284 | appends one event; nothing else changes |
| Jobs.Backend.RefundCredits | supabase/functions/meshy-poll/index.ts:291 | appends one refund of this job; nothing else changes |
| Jobs.Backend.CallProvider | supabase/functions/meshy-poll/index.ts:265-269 | appends one provider call; nothing else changes |
| Jobs.Backend.WriteAsset | supabase/functions/meshy-poll/index.ts:157-160 | appends one asset write; nothing else changes |
| Jobs.Backend.RecordUploads | supabase/functions/meshy-poll/index.ts:133-139 | appends the uploads of one storage run; nothing else changes |
| Jobs.Backend.constructor | supabase/functions/meshy-poll/index.ts:236-240 | the backend starts in the world given |
| Reconcile.Marker | supabase/functions/meshy-poll/index.ts:320-322 | the id recorded under a key, present exactly when it is a non-empty string |
| Reconcile.StayInProgress | supabase/functions/meshy-poll/index.ts:271-287 | ends in `InProgressStep`: IN_PROGRESS and `last_task`, with an event only when the job was not already IN_PROGRESS |
| Reconcile.Terminate | supabase/functions/meshy-poll/index.ts:289-296 | ends in `TerminateStep`: the terminal status, `completed_at`, one refund and one event |
| Reconcile.Finish | supabase/functions/meshy-poll/index.ts:440-456 | ends in `FinishStep`: SUCCEEDED, the task under its key and as `last_task`, and one SUCCEEDED event |
| Reconcile.Resume | supabase/functions/meshy-poll/index.ts:320-339 | ends in `ResumeStep`: the next stage, IN_PROGRESS, the recorded id as task id; nothing is created |
| Reconcile.Advance | supabase/functions/meshy-poll/index.ts:341-367 | ends in `AdvanceStep`: the next stage, IN_PROGRESS, the new id, the merged patch, one event with the request |
| Reconcile.Catch | supabase/functions/meshy-poll/index.ts:460-471 | ends in `CatchStep`: FAILED with the message, a refund only when asked, a 500 with the message |
| Reconcile.AssetFieldsShape | supabase/functions/meshy-poll/index.ts:116-129 | the asset fields hold `source_job_id` and a channel's URL key exactly when that channel has a non-empty URL, with that URL |
| Reconcile.BuildAssetFields | supabase/functions/meshy-poll/index.ts:122-129 | building the fields key by key gives `AssetFields` |
| Reconcile.ShouldStoreAssets | supabase/functions/meshy-poll/index.ts:107-111 | storing is skipped exactly when the request payload says `store_assets: false` |
| Reconcile.Store | supabase/functions/meshy-poll/index.ts:131-155 | ends in `StoreStep`: uploads recorded; on success the paths join the fields, on failure the job's error message records it |
| MeshyConfig.Strings | supabase/functions/meshy-poll/index.ts:52-70 | keeps exactly the string-valued entries under the given keys |
| MeshyConfig.Numbers | supabase/functions/meshy-poll/index.ts:52-70 | keeps exactly the number-valued entries under the given keys |
| MeshyConfig.RefineConfig | supabase/functions/meshy-poll/index.ts:52-70 | enabled unless `enabled: false`; `mode: "refine"`, `enable_pbr` true unless given as a boolean; the typed optional settings copied |
| MeshyConfig.TargetFormat | supabase/functions/meshy-poll/index.ts:76-80 | `target_format`, else the first of `target_formats` when a string, else "fbx" |
| MeshyConfig.FirstString | supabase/functions/meshy-poll/index.ts:76-80 | the first element of an array entry when it is a string |
| MeshyConfig.RemeshConfig | supabase/functions/meshy-poll/index.ts:72-97 | enabled unless `enabled: false`; the request is `RemeshSettings` |
| MeshyConfig.RemeshConfigKeys | supabase/functions/meshy-poll/index.ts:81-96 | the remesh request carries the resolved format, polycount and topology, and `origin_at` / `resize_height` exactly when given with the right type |
| MeshyConfig.DefaultsWithEmptyPayload | supabase/functions/meshy-poll/index.ts:52-97 | an empty payload runs both later stages with the documented defaults (fbx, 3500, triangle) |
| MeshyConfig.FirstTruthy | supabase/functions/meshy-poll/index.ts:99-105 | the first truthy value in key order, and no earlier key has one |
| MeshyConfig.PickTextureUrl | supabase/functions/meshy-poll/index.ts:99-105 | the loop over the keys returns `PickTexture`'s value |
| Meshy.CreatedTaskId | supabase/functions/_shared/meshy.ts:46-60 | a create succeeds exactly when `result` is a non-empty string; otherwise it fails with the fixed message, with the TypeError of reading `result` of a `null` body, or with the transport's error |
| Meshy.ReadTask | supabase/functions/meshy-poll/index.ts:262-271 | the task is the fetched body unless the fetch threw or the body is `null`, whose `status` read throws the TypeError the catch block records |
| Meshy.FirstTaskId | supabase/functions/meshy-webhook/index.ts:185-199 | the first candidate that is a non-empty string, and no earlier candidate is one |
| Meshy.ExtractTaskId | supabase/functions/meshy-webhook/index.ts:185-199 | the candidate loop returns `FirstTaskId` over `id`, `task_id`, `taskId`, `data.id`, `data.task_id` |
| Meshy.PerUserSecretOk | supabase/functions/meshy-webhook/index.ts:201-232 | without a header, passes; with one, passes exactly when the job exists and its owner's stored secret is a non-empty string equal to the header |
| Meshy.UpdateAssetFromTask | supabase/functions/meshy-poll/index.ts:113-170 | ends in `AssetUpdate`'s world |
| Meshy.FinishStage | supabase/functions/meshy-poll/index.ts:440-456 | ends in `FinishOutcome` |
| Meshy.AdvanceStage | supabase/functions/meshy-poll/index.ts:341-367 | ends in `AdvanceOutcome` |
| Meshy.OnSucceeded | supabase/functions/meshy-poll/index.ts:298-456 | ends in `SucceededOutcome` |
| Meshy.OnPreviewSucceeded | supabase/functions/meshy-poll/index.ts:300-368 | ends in `PreviewOutcome` |
| Meshy.OnRefineSucceeded | supabase/functions/meshy-poll/index.ts:370-438 | ends in `RefineOutcome` |
| Meshy.ReconcileTask | supabase/functions/meshy-poll/index.ts:262-471 | ends in `ReconcileOutcome` |
| Meshy.Poll | supabase/functions/meshy-poll/index.ts:250-471 | ends in `PollOutcome` |
| Meshy.Webhook | supabase/functions/meshy-webhook/index.ts:249-485 | ends in `WebhookOutcome` |
| MeshyProps.StoreStepKeepsProgress | supabase/functions/meshy-poll/index.ts:131-155 | the storage step changes neither stage, status, task id, events, refunds nor calls |
| MeshyProps.AssetUpdateKeepsProgress | supabase/functions/meshy-poll/index.ts:113-170 | the asset step changes neither stage, status, task id, events, refunds nor calls |
| MeshyProps.NoAssetNoWrite | supabase/functions/meshy-poll/index.ts:114 | a job without an asset writes nothing and uploads nothing |
| MeshyProps.AssetWriteFields | supabase/functions/meshy-poll/index.ts:122-160 | with storing off and the write accepted, exactly one asset write holding `AssetFields` |
| MeshyProps.AssetWriteFailure | supabase/functions/meshy-poll/index.ts:162-168 | a rejected asset write records its message on the job and writes nothing |
| MeshyProps.MeshUrlPrefersFbx | supabase/functions/meshy-poll/index.ts:116 | the FBX model URL wins over the GLB one |
| MeshyProps.PollLeavesTerminalJob | supabase/functions/meshy-poll/index.ts:254-256 | a SUCCEEDED, FAILED or CANCELLED job is answered with its state and nothing changes |
| MeshyProps.PollGates | supabase/functions/meshy-poll/index.ts:250-260 | a non-Meshy job gets 400, and a live job without a task id gets 409; nothing changes |
| MeshyProps.ReadsStageEndpoint | supabase/functions/meshy-poll/index.ts:262-269 | the first call reads the task from the remesh endpoint at REMESH, else from text-to-3D |
| MeshyProps.ReconcileCalls | supabase/functions/meshy-poll/index.ts:262-459 | after the task read, the reconcile body calls a provider at most once more, keeping the earlier calls |
| MeshyProps.FinishOutcomeEffects | supabase/functions/meshy-poll/index.ts:440-456 | finishing adds no call and no refund, and ends SUCCEEDED |
| MeshyProps.AdvanceOutcomeCalls | supabase/functions/meshy-poll/index.ts:341-367 | an advance adds exactly one create call |
| MeshyProps.SucceededCalls | supabase/functions/meshy-poll/index.ts:298-456 | a success adds no call or exactly one create |
| MeshyProps.PendingTaskStaysInProgress | supabase/functions/meshy-poll/index.ts:271-287 | PENDING or IN_PROGRESS: the job is IN_PROGRESS, no refund, and a 200 progress reply |
| MeshyProps.FailedTaskFailsJob | supabase/functions/meshy-poll/index.ts:289-296 | FAILED: the job fails with the task's message, one refund, one event |
| MeshyProps.UnknownStatusIsError | supabase/functions/meshy-poll/index.ts:459 | a task that was read, whose status is none of the four known ones, is a 500 "Unhandled task status" with no change |
| MeshyProps.ReadFailureNoRefund | supabase/functions/meshy-poll/index.ts:460-471 | a read that throws, or a `null` task, fails the job with the thrown message but refunds nothing |
| MeshyProps.PreviewDoneWithoutRefine | supabase/functions/meshy-poll/index.ts:300-318 | a finished preview with refine off ends SUCCEEDED at PREVIEW |
| MeshyProps.RefineDoneWithoutRemesh | supabase/functions/meshy-poll/index.ts:370-388 | a finished refine with remesh off ends SUCCEEDED at REFINE |
| MeshyProps.RemeshDone | supabase/functions/meshy-poll/index.ts:440-456 | a finished remesh ends SUCCEEDED at REMESH |
| MeshyProps.PreviewResumesRecordedRefine | supabase/functions/meshy-poll/index.ts:320-339 | a recorded `refine_task_id` is resumed, and nothing is created |
| MeshyProps.RefineResumesRecordedRemesh | supabase/functions/meshy-poll/index.ts:390-409 | a recorded `remesh_task_id` is resumed, and nothing is created |
| MeshyProps.PreviewCreatesRefine | supabase/functions/meshy-poll/index.ts:341-367 | otherwise one refine task is created from the preview task, and the job moves to REFINE with that id |
| MeshyProps.RefineCreatesRemesh | supabase/functions/meshy-poll/index.ts:411-437 | otherwise one remesh task is created with the refine task as input, and the job moves to REMESH |
| MeshyProps.RemeshRequestCarriesInput | supabase/functions/meshy-poll/index.ts:411-414 | the remesh request names the refine task as `input_task_id` |
| MeshyProps.CreateFailureNoRefund | supabase/functions/meshy-poll/index.ts:460-471 | a failed create fails the job without a refund |
| MeshyProps.WebhookNeedsTaskId | supabase/functions/meshy-webhook/index.ts:249-252 | a body without a task id gets 400 and nothing changes |
| MeshyProps.WebhookSecretGate | supabase/functions/meshy-webhook/index.ts:255-265 | a wrong per-user or global secret gets 401 and nothing changes |
| MeshyProps.ReconcileNeverUnauthorized | supabase/functions/meshy-webhook/index.ts:280-485 | the reconciling part never answers 401 |
| MeshyProps.WebhookNoMatchingJob | supabase/functions/meshy-webhook/index.ts:266-274 | a task id no job has is acknowledged and nothing changes |
| MeshyProps.WebhookLeavesTerminalJob | supabase/functions/meshy-webhook/index.ts:276-278 | a terminal job is acknowledged and nothing changes |
| MeshyProps.WebhookIgnoresProvider | supabase/functions/meshy-webhook/index.ts:266-287 | the webhook never checks the job's provider: for a Tripo job it runs the same reconciliation |
| MeshyProps.WebhookReadsTripoJobFromMeshy | supabase/functions/meshy-webhook/index.ts:280-287 | a Tripo job reached by the webhook has its task read from Meshy |
| MeshyProps.WebhookAgreesWithPoll | supabase/functions/meshy-webhook/index.ts:280-485 | for a live Meshy job, the webhook with the job's task id does what the poller does |
| TripoConfig.StageSetting | supabase/functions/tripo-poll/index.ts:52-61 | `tripo.<stage>` when it is an object, else `payload.<stage>` |
| TripoConfig.GetTripoConfig | supabase/functions/tripo-poll/index.ts:52-61 | the `tripo` section's stage objects win; the preview falls back to the whole payload |
| TripoConfig.RefineConfig | supabase/functions/tripo-poll/index.ts:63-67 | the refine settings as given, enabled unless `enabled: false` |
| TripoConfig.RemeshConfig | supabase/functions/tripo-poll/index.ts:69-77 | `target_polycount` and `format` resolved (3500 and "FBX" by default); every other key kept |
| TripoConfig.RefineRequest | supabase/functions/tripo-poll/index.ts:296-300 | the settings with `type: "refine_model"` and the preview task as `draft_model_task_id` |
| TripoConfig.RemeshRequest | supabase/functions/tripo-poll/index.ts:366-372 | the settings with `type: "convert_model"`, a format, `face_limit` from `target_polycount`, and the refine task as `original_model_task_id` |
| TripoConfig.RemeshRequestLimits | supabase/functions/tripo-poll/index.ts:366-372 | from resolved settings, `face_limit` is the resolved polycount and `format` the resolved format |
| TripoConfig.MapTripoStatus | supabase/functions/tripo-poll/index.ts:79-85 | queued and running are IN_PROGRESS, success SUCCEEDED, cancelled CANCELLED, everything else FAILED; never QUEUED |
| TripoConfig.PreviewSource | supabase/functions/tripo-dispatch/index.ts:40-46 | `tripo.preview`, else `payload.preview`, else the whole payload |
| TripoConfig.Prompt | supabase/functions/tripo-dispatch/index.ts:47-52 | `preview.prompt` when a string, else `payload.prompt` when a string, else "" |
| TripoConfig.BuildPreviewPayload | supabase/functions/tripo-dispatch/index.ts:40-63 | fails exactly when the prompt is empty; otherwise the preview settings with `type` (default `text_to_model`) and the prompt |
| Tripo.CreatedTaskId | supabase/functions/_shared/tripo.ts:53-67 | a create succeeds exactly when `data.task_id` is a non-empty string; otherwise it fails with the fixed message, with the TypeError of reading `data` of a `null` body, or with the transport's error |
| Tripo.ReadTask | supabase/functions/_shared/tripo.ts:69-76 | the task is the body's `data` (`{}` when missing) unless the fetch threw or the body is `null`, whose `data` read throws the TypeError |
| Tripo.MeshUrl | supabase/functions/tripo-poll/index.ts:89-92 | the first string among `output.pbr_model`, `output.model`, `output.base_model` |
| Tripo.UpdateAssetFromTask | supabase/functions/tripo-poll/index.ts:87-117 | ends in `AssetUpdate`'s world |
| Tripo.FinishStage | supabase/functions/tripo-poll/index.ts:398-414 | ends in `FinishOutcome` |
| Tripo.AdvanceStage | supabase/functions/tripo-poll/index.ts:296-323 | ends in `AdvanceOutcome` |
| Tripo.OnSucceeded | supabase/functions/tripo-poll/index.ts:254-414 | ends in `SucceededOutcome` |
| Tripo.OnPreviewSucceeded | supabase/functions/tripo-poll/index.ts:256-324 | ends in `PreviewOutcome` |
| Tripo.OnRefineSucceeded | supabase/functions/tripo-poll/index.ts:326-396 | ends in `RefineOutcome` |
| Tripo.ReconcileTask | supabase/functions/tripo-poll/index.ts:196-430 | ends in `ReconcileOutcome` |
| Tripo.Poll | supabase/functions/tripo-poll/index.ts:184-430 | ends in `PollOutcome` |
| Tripo.Dispatch | supabase/functions/tripo-dispatch/index.ts:105-164 | ends in `DispatchOutcome` |
| TripoProps.AssetUpdateKeepsProgress | supabase/functions/tripo-poll/index.ts:87-117 | the asset step changes neither stage, status, task id, events, refunds nor calls |
| TripoProps.StoresOnlyWithMeshUrl | supabase/functions/tripo-poll/index.ts:97-111 | without a mesh URL, or with storing off, nothing is uploaded and the job is untouched |
| TripoProps.AssetWriteFields | supabase/functions/tripo-poll/index.ts:94-116 | with storing off, one asset write holds `source_job_id` and the mesh URL when there is one; a failed write leaves no trace |
| TripoProps.PollLeavesTerminalJob | supabase/functions/tripo-poll/index.ts:188-190 | a terminal job is answered with its state and nothing changes |
| TripoProps.PollGates | supabase/functions/tripo-poll/index.ts:184-194 | a non-Tripo job gets 400, and a live job without a task id gets 409 |
| TripoProps.PendingTaskStaysInProgress | supabase/functions/tripo-poll/index.ts:201-217 | queued or running: IN_PROGRESS, no refund, a progress reply |
| TripoProps.FailedTaskFailsJob | supabase/functions/tripo-poll/index.ts:219-235 | FAILED with "Tripo task <status>", one refund, one event |
| TripoProps.CancelledTaskCancelsJob | supabase/functions/tripo-poll/index.ts:237-252 | CANCELLED, one refund, one event with message "cancelled" |
| TripoProps.ReadFailureRefunds | supabase/functions/tripo-poll/index.ts:418-430 | a read that throws, or a `null` body, fails the job with the thrown message and refunds once |
| TripoProps.FinishOutcomeEffects | supabase/functions/tripo-poll/index.ts:398-414 | finishing adds no call and no refund, and ends SUCCEEDED |
| TripoProps.PreviewDoneWithoutRefine | supabase/functions/tripo-poll/index.ts:256-274 | a finished preview with refine off ends SUCCEEDED at PREVIEW |
| TripoProps.RemeshDone | supabase/functions/tripo-poll/index.ts:398-414 | a finished remesh ends SUCCEEDED at REMESH |
| TripoProps.PreviewResumesRecordedRefine | supabase/functions/tripo-poll/index.ts:276-294 | a recorded `refine_task_id` is resumed, and nothing is created |
| TripoProps.PreviewCreatesRefine | supabase/functions/tripo-poll/index.ts:296-323 | otherwise one refine task with `type: refine_model` and `draft_model_task_id` = the preview task is created, and the job moves to REFINE |
| TripoProps.RefineCreatesRemesh | supabase/functions/tripo-poll/index.ts:366-395 | otherwise one remesh task with `face_limit` = the target polycount is created, and the job moves to REMESH |
| TripoProps.CreateFailureRefunds | supabase/functions/tripo-poll/index.ts:418-430 | after the read and the refine create, a failed create fails the job with its message and refunds once, with no event |
| TripoProps.DispatchGates | supabase/functions/tripo-dispatch/index.ts:105-115 | 400 for a non-Tripo job, 409 off PREVIEW, "already in progress" unless QUEUED or FAILED; nothing changes |
| TripoProps.DispatchNeedsPrompt | supabase/functions/tripo-dispatch/index.ts:117-122 | an empty prompt gets 400 "prompt is required in request_payload" and no call |
| TripoProps.DispatchSucceeds | supabase/functions/tripo-dispatch/index.ts:124-151 | one create; the job is IN_PROGRESS with the new id, `preview_task_id` and `preview_request` merged, `started_at`, one event |
| TripoProps.DispatchUpdateError | supabase/functions/tripo-dispatch/index.ts:143-145 | a rejected update answers 500 "Failed to update job" after the create |
| TripoProps.DispatchCreateFailure | supabase/functions/tripo-dispatch/index.ts:152-164 | a failed create fails the job, refunds once, logs a FAILED event and answers 500 with the message |
| TripoProps.RedispatchRefundsAgain | supabase/functions/tripo-dispatch/index.ts:113-164 | a job whose dispatch failed can be dispatched again: two failures make two creates and two refunds |
| RunProps.MarkersKept | supabase/functions/meshy-poll/index.ts:48-50 | a merge that does not touch the marker keys keeps the markers |
| RunProps.MergeKeepsMarkers | supabase/functions/meshy-poll/index.ts:48-50 | merging preserves the stage markers |
| RunProps.BudgetedTransitive | supabase/functions/meshy-poll/index.ts:262-471 | the budget relation composes |
| RunProps.KeptTransitive | supabase/functions/meshy-poll/index.ts:262-471 | the budget-and-markers relation composes |
| RunProps.SameProgressKept | supabase/functions/meshy-poll/index.ts:113-170 | an asset step keeps the budget and the markers |
| RunProps.InProgressStepKept | supabase/functions/meshy-poll/index.ts:271-287 | an in-progress step keeps the budget and the markers |
| RunProps.TerminateStepKept | supabase/functions/meshy-poll/index.ts:172-183 | termination spends the one refund a live job has left |
| RunProps.CatchStepKept | supabase/functions/meshy-poll/index.ts:460-471 | the catch block keeps the budget |
| RunProps.FinishStepKept | supabase/functions/meshy-poll/index.ts:440-456 | finishing keeps the budget |
| RunProps.ResumeStepKept | supabase/functions/meshy-poll/index.ts:320-339 | resuming moves one stage on without creating |
| RunProps.CreateThenCatchKept | supabase/functions/meshy-poll/index.ts:341-344 | a create that then fails still fits the budget below REMESH |
| RunProps.CreateThenAdvanceKept | supabase/functions/meshy-poll/index.ts:341-367 | a create that advances pays with one stage of potential |
| RunProps.ReadKept | supabase/functions/meshy-poll/index.ts:262-269 | a read call creates nothing |
| RunProps.MeshyFinishKept | supabase/functions/meshy-poll/index.ts:440-456 | the Meshy finish keeps budget and markers |
| RunProps.MeshyAdvanceKept | supabase/functions/meshy-poll/index.ts:341-367 | the Meshy advance keeps budget and markers |
| RunProps.MeshySucceededKept | supabase/functions/meshy-poll/index.ts:298-456 | every Meshy success branch keeps budget and markers |
| RunProps.MeshyReconcileKept | supabase/functions/meshy-poll/index.ts:262-471 | a Meshy reconciliation keeps budget and markers |
| RunProps.MeshyPollKept | supabase/functions/meshy-poll/index.ts:250-471 | a Meshy poll keeps budget and markers |
| RunProps.MeshyWebhookKept | supabase/functions/meshy-webhook/index.ts:249-485 | a Meshy webhook keeps budget and markers |
| RunProps.TripoFinishKept | supabase/functions/tripo-poll/index.ts:398-414 | the Tripo finish keeps budget and markers |
| RunProps.TripoAdvanceKept | supabase/functions/tripo-poll/index.ts:296-323 | the Tripo advance keeps budget and markers |
| RunProps.TripoSucceededKept | supabase/functions/tripo-poll/index.ts:254-414 | every Tripo success branch keeps budget and markers |
| RunProps.TripoReconcileKept | supabase/functions/tripo-poll/index.ts:196-430 | a Tripo reconciliation keeps budget and markers |
| RunProps.TripoPollKept | supabase/functions/tripo-poll/index.ts:184-430 | a Tripo poll keeps budget and markers |
| RunProps.DispatchKept | supabase/functions/tripo-dispatch/index.ts:105-164 | a dispatch of a job that is not FAILED, whose update is accepted, keeps budget and markers |
| RunProps.DispatchOutsideBudget | supabase/functions/tripo-dispatch/index.ts:113-164 | re-dispatching a FAILED job refunds a second time, and a rejected update leaves a QUEUED job after a create: the dispatcher is outside the budget |
| RunProps.RunOnceKept | supabase/functions/meshy-poll/index.ts:250-471 | any one poll or webhook run keeps budget and markers |
| RunProps.RunAllKept | supabase/functions/tripo-poll/index.ts:184-430 | any sequence of poll and webhook runs keeps budget and markers |
| RunProps.RunBounds | supabase/functions/meshy-poll/index.ts:289-471 | over any run sequence, creates are bounded by the stages still ahead (at most three), refunds by one while the job is live, and the stage never goes back |
| RunProps.RunKeepsMarkers | supabase/functions/meshy-poll/index.ts:320-339 | a job whose REFINE or REMESH task id is the recorded marker keeps that agreement through any run sequence |
| RunProps.TerminalJobIsFinal | supabase/functions/meshy-poll/index.ts:254-256 | runs leave a terminal job's world unchanged |
| JobCreate.ExtractPayload | supabase/functions/job-create/index.ts:8-13 | `request_payload` when it is an object, else the body |
| JobCreate.ExplicitProvider | supabase/functions/job-create/index.ts:16-19 | TRIPO or MESHY exactly when `provider` upper-cases to that name |
| JobCreate.SelectProvider | supabase/functions/job-create/index.ts:15-28 | an explicit provider wins; else TRIPO exactly when rigging is asked for or the category is avatar or character |
| JobCreate.ProviderNameIgnoresCase | supabase/functions/job-create/index.ts:16-19 | two provider names that agree once upper-cased select the same provider, and so do a name and its lower-case form |
| JobCreate.NamedProvider | supabase/functions/job-create/index.ts:16-27 | naming a provider leaves the rig hints as they were, and the name counts only upper-cased |
| JobCreate.PromptOf | supabase/functions/job-create/index.ts:31-36 | `preview.prompt` whenever `preview` is an object holding a string, else `payload.prompt`, else "" |
| JobCreate.ValidatePrompt | supabase/functions/job-create/index.ts:30-40 | fails with "prompt is required" exactly when the prompt is empty |
| JobCreate.EmptyPreviewPromptRefused | supabase/functions/job-create/index.ts:34-39 | an empty `preview.prompt` is refused whatever the top-level prompt |
| JobCreate.CreateRequest | supabase/functions/job-create/index.ts:83-107 | refused exactly when the prompt is empty; otherwise the payload, the provider, the typed asset fields, and `create_asset` false only when given as `false` |
| JobCreate.RpcReply | supabase/functions/job-create/index.ts:109-123 | created exactly with no error and some rows; "insufficient credits" in the message gives 402; otherwise 500 with the message or "Failed to create job" |
| JobCreate.CreditErrorIs402 | supabase/functions/job-create/index.ts:110-113 | the phrase anywhere in the error message gives 402 "Insufficient credits" |
| RobloxOAuth.Sextets | supabase/functions/_shared/roblox_oauth.ts:19-20 | the six-bit groups of section 4 of RFC 4648, ceil(4n/3) of them |
| RobloxOAuth.UrlSafe | supabase/functions/_shared/roblox_oauth.ts:21-22 | the replacement keeps the length |
| RobloxOAuth.UrlSafeStdChar | supabase/functions/_shared/roblox_oauth.ts:21-22 | replacing `+` and `/` maps the standard alphabet onto the URL-safe one |
| RobloxOAuth.Base64Url | supabase/functions/_shared/roblox_oauth.ts:19-24 | the reference encoding contains no `+`, `/` or `=`, and has ceil(4n/3) characters |
| RobloxOAuth.UrlSafeBase64 | supabase/functions/_shared/roblox_oauth.ts:20-22 | the replaced standard encoding is the reference encoding plus its padding |
| RobloxOAuth.StripPaddingOf | supabase/functions/_shared/roblox_oauth.ts:23 | stripping removes exactly the trailing padding |
| RobloxOAuth.Base64UrlEncodeIsBase64Url | supabase/functions/_shared/roblox_oauth.ts:19-24 | `base64UrlEncode` equals unpadded base64url (section 5 of RFC 4648): no `+`, `/` or `=`, length ceil(4n/3) |
| RobloxOAuth.VerifierAndStateLengths | supabase/functions/_shared/roblox_oauth.ts:26-40 | a 32-byte verifier encodes to 43 characters (within 43–128, section 4.1 of RFC 7636); a 16-byte state encodes to 22 |
| RobloxOAuth.SettingsFromRows | supabase/functions/_shared/roblox_oauth.ts:50-58 | a key is set exactly when some row with string key and value names it; its value is the last such row's |
| RobloxOAuth.FetchSettings | supabase/functions/_shared/roblox_oauth.ts:42-60 | the row loop returns `Settings` of the query data; a non-array gives none |
| RobloxOAuth.Pick | supabase/functions/_shared/roblox_oauth.ts:73-76 | the non-empty environment value, else the setting, else "" |
| RobloxOAuth.ResolveConfig | supabase/functions/_shared/roblox_oauth.ts:62-89 | settings are read only when an environment value is empty; missing id, secret, redirect throw in that order; success exactly when all three are set; return URL absent when empty |
| RobloxOAuth.FullEnvIgnoresSettings | supabase/functions/_shared/roblox_oauth.ts:68-71 | with every environment value set, the settings table makes no difference |
| RobloxOAuth.Param | supabase/functions/_shared/roblox_oauth.ts:98-104 | a found parameter occurs in the list; none found exactly when no entry has the name |
| RobloxOAuth.ParamAt | supabase/functions/_shared/roblox_oauth.ts:98-104 | lookup finds the first entry with the name |
| RobloxOAuth.AuthorizeRequestFlow | supabase/functions/_shared/roblox_oauth.ts:100-104 | `response_type=code`, `code_challenge_method=S256`, the state and the challenge (section 4.1.1 of RFC 6749, section 4.3 of RFC 7636) |
| RobloxOAuth.AuthorizeRequestClient | supabase/functions/_shared/roblox_oauth.ts:98-101 | the client id, the redirect URI, and the scopes joined by a single space |
| RobloxOAuth.ScopeRoundTrip | supabase/functions/_shared/roblox_oauth.ts:101 | splitting the scope parameter at spaces gives back scopes that contain no space |
| RobloxOAuth.DecideToken | supabase/functions/_shared/roblox_oauth.ts:186-198 | no row gives no token; no expiry or more than 60 s left gives the stored token, type defaulting to Bearer; otherwise none exactly when no refresh token; a refresh uses the stored refresh token |
| RobloxOAuth.AfterRefresh | supabase/functions/_shared/roblox_oauth.ts:200-220 | an empty access token gives none; otherwise the upsert keeps the old refresh token and type when not strings, scope only as a string, expiry only for positive `expires_in` |
| RobloxOAuth.ValidToken | supabase/functions/_shared/roblox_oauth.ts:176-221 | null without a usable row, the stored token when fresh, otherwise the renewed token exactly when the refresh gave one |
| RobloxOAuth.FreshTokenIsNotRefreshed | supabase/functions/_shared/roblox_oauth.ts:190-193 | a token with more than a minute left is used as stored |
| RobloxPublish.BuildMultipart | supabase/functions/roblox-publish/index.ts:11-35 | the two loops push exactly `Multipart`'s chunks, under the boundary made from the UUID |
| RobloxPublish.FieldChunksAt | supabase/functions/roblox-publish/index.ts:16-20 | field i occupies chunks 3i to 3i+2 |
| RobloxPublish.FileChunksAt | supabase/functions/roblox-publish/index.ts:22-31 | file j occupies four chunks, the third being its bytes |
| RobloxPublish.MultipartLayout | supabase/functions/roblox-publish/index.ts:16-33 | every field once in order, then every file once in order, then the close delimiter last (RFC 7578) |
| RobloxPublish.FieldsReadBack | supabase/functions/roblox-publish/index.ts:17-19 | every field's name and value are read back from its part |
| RobloxPublish.BoundaryIsValid | supabase/functions/roblox-publish/index.ts:12 | for a UUID, the boundary has 1 to 70 characters, all from the set of section 5.1.1 of RFC 2046, none a space |
| RobloxPublish.MeshFileFor | supabase/functions/roblox-publish/index.ts:154-160 | `.glb` gives `asset.glb`/`model/gltf-binary`, `.gltf` gives `asset.gltf`/`model/gltf+json`, anything else `asset.fbx`/`model/fbx`, on the lower-cased path |
| RobloxPublish.MeshFileAgreesWithStorage | supabase/functions/roblox-publish/index.ts:154-160 | outside image and OBJ paths, the content type is what the storage helper infers with `model/fbx` as fallback |
| RobloxPublish.MeshFileNameMatchesType | supabase/functions/roblox-publish/index.ts:157-160 | the file name's extension is one the storage table maps to the content type sent |
| RobloxPublish.CreatorId | supabase/functions/roblox-publish/index.ts:114-126 | a number is kept, a string is parsed and dropped when not finite, anything else is null |
| RobloxPublish.PayloadOf | supabase/functions/roblox-publish/index.ts:121-127 | string fields or defaults `RobloxItem`, "", `Model`; the two creator ids |
| RobloxPublish.CreatorOf | supabase/functions/roblox-publish/index.ts:129-131 | refused with 400 exactly when neither id is truthy; else the user when truthy, else the group |
| RobloxPublish.NonNumericCreatorRefused | supabase/functions/roblox-publish/index.ts:114-131 | a non-numeric creator string leaves no creator, and the request is refused |
| RobloxPublish.MeshUrlOf | supabase/functions/roblox-publish/index.ts:103-112 | a signed storage URL replaces `mesh_url`; 409 when neither is set |
| RobloxPublish.PlanPublish | supabase/functions/roblox-publish/index.ts:86-131 | 400 without asset id, 404 without asset; a plan only for the owner, with `MeshUrlOf`'s URL and `CreatorOf`'s creator |
| RobloxPublish.OnlyOwnerPublishes | supabase/functions/roblox-publish/index.ts:100-102 | another user's asset is refused with 403 before anything else is looked at |
| RobloxPublish.RecordAnswer | supabase/functions/roblox-publish/index.ts:199-227 | a failure is FAILED with the message or "Roblox publish failed" under Roblox's status; success is QUEUED with the string operation id and path |
| RobloxPublish.ResponseJson | supabase/functions/roblox-publish/index.ts:191-197 | an empty body is `{}`, an unparsable one `{ raw: text }` |
| RobloxPublish.PublishToken | supabase/functions/roblox-publish/index.ts:147-152 | the OAuth token when there is one, else `ROBLOX_OAUTH_TOKEN` as Bearer; 401 "Missing Roblox OAuth token" exactly when the chosen token is empty; a token sent is never empty |
| RobloxPublish.FreshStoredTokenIsSent | supabase/functions/roblox-publish/index.ts:147-152 | a fresh stored token is sent as stored whatever the environment holds, and an empty one is refused rather than replaced |
| RobloxPublish.TokenFallsBackToEnv | supabase/functions/roblox-publish/index.ts:147-152 | without a row, or with an expired row that cannot be renewed, the environment token is sent as Bearer, or 401 without one |
| RobloxPublishStatus.OperationId | supabase/functions/roblox-publish-status/index.ts:48-55 | 409 without id and path; the stored id when set; else the path's last segment; never empty |
| RobloxPublishStatus.PollRequest | supabase/functions/roblox-publish-status/index.ts:48-65 | 409 without an operation id, then 401 exactly when no token is chosen, else the GET of `operations/<id>` with the chosen token's Authorization header |
| RobloxPublishStatus.PollsRecordedOperation | supabase/functions/roblox-publish-status/index.ts:52-65 | a job with only an operation path polls a URL whose last segment is that path's last segment |
| RobloxPublishStatus.PathGivesId | supabase/functions/roblox-publish-status/index.ts:52 | the id after the last `/` of a path is the id |
| RobloxPublishStatus.LastSegmentAfterSlash | supabase/functions/roblox-publish-status/index.ts:52 | `split("/").pop()` of `prefix/id` is `id` |
| RobloxPublishStatus.EmptyIdShadowsPath | supabase/functions/roblox-publish-status/index.ts:52-55 | an empty stored id is kept by `??`, so the path is ignored and the answer is 409 |
| RobloxPublishStatus.PublishedIdIsPolled | supabase/functions/roblox-publish/index.ts:212-220 | the id the publish handler records is the one polled |
| RobloxPublishStatus.OperationJson | supabase/functions/roblox-publish-status/index.ts:67-73 | empty body `{}`; unparsable body `{ error: { message: text } }` |
| RobloxPublishStatus.RobloxAssetId | supabase/functions/roblox-publish-status/index.ts:102-104 | a number kept, a string put through `Number`, otherwise null |
| RobloxPublishStatus.AnswerOutcome | supabase/functions/roblox-publish-status/index.ts:75-128 | non-ok: FAILED with the message or the default, under Roblox's status; done with error: FAILED, 500; done: PUBLISHED with the asset id; else the stored status echoed and no write |
| RobloxPublishStatus.WritesOnlyFinalStates | supabase/functions/roblox-publish-status/index.ts:75-128 | a write happens exactly when the reply is not pending, only to FAILED or PUBLISHED, FAILED with a message; PUBLISHED exactly for a finished, error-free operation |
| RobloxPublishStatus.UnreadableBodyIsTheMessage | supabase/functions/roblox-publish-status/index.ts:69-80 | an unparsable error body becomes the job's error message |
| WebhookSecret.Radix16 | supabase/functions/webhook-secret/index.ts:10 | `toString(16)` is never empty |
| WebhookSecret.PadStart | supabase/functions/webhook-secret/index.ts:10 | `padStart` reaches the width unless the string is already longer |
| WebhookSecret.HexByteDigits | supabase/functions/webhook-secret/index.ts:10 | each byte is two digits, high nibble first, zero-padded |
| WebhookSecret.SecretCons | supabase/functions/webhook-secret/index.ts:10 | joining with "" concatenates the byte forms |
| WebhookSecret.SecretIsHex | supabase/functions/webhook-secret/index.ts:8-11 | two lower-case hex digits per byte, in byte order, which read back to the bytes |
| WebhookSecret.SecretLength | supabase/functions/webhook-secret/index.ts:8-11 | 32 bytes give 64 characters |
| WebhookSecret.SecretInjective | supabase/functions/webhook-secret/index.ts:8-11 | different bytes give different secrets |
| WebhookSecret.ProviderOf | supabase/functions/webhook-secret/index.ts:33-36 | the upper-cased string provider or MESHY; 400 unless MESHY or TRIPO |
| WebhookSecret.SecretOutcome | supabase/functions/webhook-secret/index.ts:33-65 | an existing secret without `rotate === true` is returned unrotated and nothing is written; otherwise the new secret is upserted and returned rotated, or 500 on a store error |
| WebhookSecret.SecretIsStable | supabase/functions/webhook-secret/index.ts:47-65 | a second call without rotate returns the first call's secret and writes nothing |
| WebhookSecret.OnlyTrueRotates | supabase/functions/webhook-secret/index.ts:47 | the string "true" does not rotate; the boolean does |
| AssetFetch.ChannelUrl | supabase/functions/asset-fetch/index.ts:43-59 | the signed URL when the channel has a storage path and signing succeeded, else the stored URL |
| AssetFetch.FetchOutcome | supabase/functions/asset-fetch/index.ts:17-69 | 400 without id, 404 without asset; the URLs exactly when the access rule allows; one URL per channel, the id and the metadata |
| AssetFetch.DeniedDisclosesNothing | supabase/functions/asset-fetch/index.ts:36-41 | a denied caller gets the same 403 whatever the asset's URLs, paths and metadata |
| AssetFetch.AnonymousReadsOnlyPublic | supabase/functions/asset-fetch/index.ts:36-41 | an anonymous caller without the key reads exactly the public assets |
| AssetFetch.OwnerAndInternalRead | supabase/functions/asset-fetch/index.ts:36-37 | the owner and the internal service read any asset |
| AssetFetch.UnstoredAssetServesStoredUrls | supabase/functions/asset-fetch/index.ts:43-59 | an asset with no storage paths is served its stored URLs whatever signing gives |
| AssetFetch.SigningFailureFallsBack | supabase/functions/asset-fetch/index.ts:43-59 | a failed signing falls back to that channel's stored URL |

## Left out

- HTTP plumbing is not modelled: CORS preflight, method checks, JSON body parsing errors and response headers. Nor are the steps before each handler's provider check: job-id parsing, authentication, rate limiting, job lookup and the owner check.
- SQL, the Supabase client, the providers' HTTP APIs and the storage bucket become parameters: task responses, created ids, upload errors, the dispatcher's job-update error, the asset-row update error, signed URLs, settings rows and RPC answers.
- The poll and webhook handlers never read the `error` of their `ai_jobs` updates (for example tripo-poll/index.ts:219-231 and meshy-poll/index.ts:289-296). The model applies each of these updates as accepted and has no input for a rejected one.
- The clock, `crypto.randomUUID`, `crypto.getRandomValues` and SHA-256 are not modelled. Times, UUIDs, random bytes and digests are inputs. `getValidRobloxAccessToken` reads the clock twice; the model uses one instant for both reads.
- Concurrency between handlers is not modelled. Runs over one job are sequential.
- JSON numbers are integers (`Value.Num`). `Number(string)` is a parameter, or a given `JsNum` (an integer or NaN). Fractions and infinities are not modelled.
- `Text.Lower` and `Text.Upper` map ASCII letters only. JavaScript's full Unicode case mapping (e.g. `ı` → `I`) is not modelled.
- `TextEncoder` (UTF-8) is not modelled. Multipart chunks stay text or bytes, and the `Blob` is the chunk sequence.
- URL parsing (`new URL(...).pathname`, `searchParams`) and URL encoding are not modelled. The mesh URL's path is an input, and the authorize URL is its parameter list in order.
- `encodeForm` and the token-endpoint requests (`fetchToken`, `exchangeCodeForToken`, `refreshAccessToken`) are not modelled: they only serialise and send. An exception thrown by the refresh propagates to the caller. `AfterRefresh` starts from the refresh response.
- `JSON.stringify` of the publish request and the publish handler's calls are not modelled: the job insert, the token-row lookup, the download and the upload POST. `PlanPublish` covers the decisions before them, `PublishToken` the token choice, and `RecordAnswer` the updates after.
- The publish-status handler's calls are not modelled: the publish-job lookup, the token-row lookup and the operations GET itself. `PollRequest` covers the operation id and token decisions and the request they produce, and `AnswerOutcome` the answer.
- RobloxPublish.ResponseJson: a body that parses to anything but an object is read as `{}`. In the source a `null` body makes the next property read (`responseJson.message` or `responseJson.operationId`) throw out of the handler, and an array or scalar body is stored as given in `result_payload`.
- RobloxPublishStatus.OperationJson: likewise, a `null` body makes the first property read (`responseJson.error` after a failed read, `responseJson.done` otherwise) throw out of the handler, and a non-object body is stored as given. The model reads both as `{}`.
- Arrays are read as having no named keys. Values of non-string type under `model_urls`, `texture_urls` and the Tripo output are treated as absent.
- Auth.AuthenticateRequest: a failing `app_settings` lookup and a missing row look the same here (`storedKey` None), as they do in the source.
- RunProps.RunBounds: proved for runs in which every `ai_jobs` update of the poll and webhook handlers is accepted. The source does not check these updates. If a FAILED update is rejected after its refund, the job stays live and the next poll refunds again. The model has no input for the rejection, so this second refund is not exhibited. RunProps.RunAllKept rests on the same assumption.
- Storage.Persist: runs the corrected size bound `Storage.MaxBytes` (50 MiB for a non-numeric `ASSET_MAX_MB`), not the NaN bound written at storage.ts:74-75 (see Findings). With a non-numeric setting the source uploads a file of any size; the model refuses one over 50 MiB.
- Storage.PersistFits: states the size bound for the corrected `MaxBytes` only. Under the source's NaN bound no size is enforced, as Storage.NonNumericLimitAcceptsAnySize shows.
- Storage.PersistRemoteAssets: runs the corrected bound, as Storage.Persist does.
- Reconcile.Store: persists under the corrected bound. For a non-numeric `ASSET_MAX_MB` and a file over 50 MiB it records "Storage import failed" where the source uploads the file.
- Reconcile.StoreStep: the same corrected bound as Reconcile.Store.
- RunProps.DispatchKept: stated only for a job that is not FAILED and whose update is accepted. The other cases leave the budget, and RunProps.DispatchOutsideBudget exhibits both.

## Findings

| source | as written | input that shows it | evidently intended | confidence | as-written member | corrected member |
|---|---|---|---|---|---|---|
| supabase/functions/_shared/storage.ts:74-75 | `Math.max(1, Number(ASSET_MAX_MB \|\| "50")) * 1024 * 1024` is NaN for a non-numeric setting, and every `> maxBytes` test is then false | `ASSET_MAX_MB="50MB"` with a 200 MiB body and no content-length header: the download is accepted | a non-numeric setting falls back to the 50 MiB default, so the bound always holds | not executed | Storage.NonNumericLimitAcceptsAnySize | Storage.CorrectedLimitHolds |
