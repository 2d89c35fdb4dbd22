# Frigate core, modelled in Dafny

This project models the core logic of Frigate, a network video recorder
that runs object detection on camera streams. The model covers:

- the chat endpoint's tool loop and the tool helpers (`frigate/api/chat.py`);
- the generative-AI providers: llama.cpp, OpenAI, Azure OpenAI, Gemini and
  Ollama, and the client manager;
- the job registry and the media-sync job;
- the media sync pass that finds orphaned recordings, previews, thumbnails,
  review thumbnails and exports;
- the config migration chain and its helpers (`frigate/util/config.py`);
- the recordings API: the gap sweep, deletion, and the daily summary;
- the timeline processor;
- the config translation extractor (`generate_config_translations.py`);
- the go2rtc and nginx start-up config generators;
- the configuration models: authentication roles, cameras (zone colours,
  input roles, ffmpeg command assembly), recording, review, objects,
  masks, motion, camera groups, MQTT, proxy, Birdseye, and the detector
  model settings.

Python dicts are modelled by a JSON value whose objects keep their key
order (`json.dfy`). Code that changes state step by step is modelled by
classes and methods with loops. Each such method is proved against a
specification function, and the properties are proved as lemmas about
those functions. I/O, the network, clocks, databases and foreign libraries
become inputs: a parameter, a function-valued parameter, or a sequence of
results.

Source cells below are paths under the repository root.

## Model

| member | source | states |
|---|---|---|
| Auth.WithoutUnderscores | frigate/config/auth.py:78 | Removing underscores leaves no underscore and only characters of the name; the result is empty exactly when the name is all underscores. |
| Auth.UnderscoresOnlyInvalid | frigate/config/auth.py:77-81 | A role name that is empty or made only of underscores is refused. |
| Auth.WordNameValid | frigate/config/auth.py:77-81 | A name of ASCII letters, digits and underscores with at least one letter or digit is accepted. |
| Auth.FirstInvalidName | frigate/config/auth.py:77-81 | Finds nothing exactly when every name is valid; otherwise it names an invalid role of the table. |
| Auth.FirstWithoutCameras | frigate/config/auth.py:91-95 | Finds nothing exactly when every role has a camera; otherwise it names a role whose camera list is empty. |
| Auth.ValidateRoles | frigate/config/auth.py:75-97 | Valid exactly when every name is valid, none is reserved and every role has a camera; each error names a role that breaks its rule, checked in the source's order. |
| Auth.ValidatedRolesFinal | frigate/config/auth.py:75-105 | A table that passes validation ends with its custom roles in order, each with its camera list, then "admin" and "viewer" with the empty list. |
| Auth.DefaultsAppended | frigate/config/auth.py:100-105 | Adding the built-in roles to a table without them appends "admin" then "viewer". |
| Auth.DefaultRolesAlwaysSet | frigate/config/auth.py:100-105 | Whatever the table held, "admin" and "viewer" end with the empty list and every other role keeps its list. |
| Auth.AuthConfig.constructor | frigate/config/auth.py:21-43 | The defaults: no roles, session 86400 s, refresh 1800 s, cookie "frigate_token"; they satisfy the field bounds. |
| Auth.AuthConfig.EnsureDefaultRoles | frigate/config/auth.py:100-105 | The roles become the table with both built-in roles set to the empty list; other settings are unchanged. |
| AzureOpenAI.NetlocOf | frigate/genai/azure-openai.py:26 | The network location `urlparse` reads after "//" holds none of "/", "?" and "#". |
| AzureOpenAI.UrlSplit | frigate/genai/azure-openai.py:26 | The URL splits into scheme, network location, query and fragment; it fails exactly when "[" and "]" are unbalanced in the network location. |
| AzureOpenAI.FirstValue | frigate/genai/azure-openai.py:27-28 | A value that `parse_qs` collects is never empty, since blank values are dropped. |
| AzureOpenAI.QueryParam | frigate/genai/azure-openai.py:27-28 | The api-version read from the query is absent or non-empty. |
| AzureOpenAI.ProviderFor | frigate/genai/azure-openai.py:23-43 | No provider when the URL does not parse or has no api-version; otherwise the first api-version and the endpoint `scheme://netloc/`. |
| AzureOpenAI.TypicalScheme | frigate/genai/azure-openai.py:26 | The scheme of `scheme:rest` is the lower-cased scheme, and the rest follows it. |
| AzureOpenAI.TypicalNetloc | frigate/genai/azure-openai.py:26 | After "//host" the host is the network location when the rest starts with "/" or "?". |
| AzureOpenAI.TypicalQuery | frigate/genai/azure-openai.py:26 | Without "#", the query of `path?query` is `query` when the path holds no "?". |
| AzureOpenAI.TypicalVersion | frigate/genai/azure-openai.py:27-28 | The query `api-version=v` gives `v`. |
| AzureOpenAI.TypicalUrlSplit | frigate/genai/azure-openai.py:26-27 | `scheme://host/path?api-version=v` splits into the lower-cased scheme, the host and that query. |
| AzureOpenAI.TypicalUrl | frigate/genai/azure-openai.py:23-43 | A deployment URL of the usual shape gives version `v` and endpoint `scheme://host/`. |
| AzureOpenAI.UserContentShape | frigate/genai/azure-openai.py:47-65 | The content is the prompt text, then one part per image. |
| AzureOpenAI.UserContentImage | frigate/genai/azure-openai.py:47-65 | The part for image i, in order, is a low-detail image part whose URL is the JPEG data URL of its base64. |
| AzureOpenAI.SendRequest | frigate/genai/azure-openai.py:49-69 | The call fails exactly when a runtime option repeats model, messages or timeout; otherwise it sends the model, the timeout and every runtime option. |
| AzureOpenAI.SendOutcome | frigate/genai/azure-openai.py:45-75 | Nothing is returned when nothing was sent, the call failed or there are no choices; otherwise the first choice's stripped content. |
| AzureOpenAI.RequestParams | frigate/genai/azure-openai.py:97-106 | The request parameters form a dictionary. |
| AzureOpenAI.RequestParamsFields | frigate/genai/azure-openai.py:86-106 | Only model, messages and timeout are sent without tools; tools are sent when given, and tool_choice only with tools and only as "none", "auto" or "required". |
| AzureOpenAI.AzureOpenAIClient.constructor | frigate/genai/azure-openai.py:23-43 | The client keeps its settings and builds its provider from the base URL. |
| AzureOpenAI.AzureOpenAIClient.Send | frigate/genai/azure-openai.py:45-75 | Without a provider nothing is sent and the result is empty; otherwise it sends the built request and returns the outcome above. |
| AzureOpenAI.AzureOpenAIClient.ChatWithTools | frigate/genai/azure-openai.py:81-169 | Without a provider or on failure the reply is the error reply; otherwise it sends the built request and converts the completion as the OpenAI client does. |
| BirdseyeConfig.FirstIndex | frigate/config/camera/birdseye.py:23 | The index found holds the value and no earlier member does; no index means no member holds it. |
| BirdseyeConfig.GetIndex | frigate/config/camera/birdseye.py:21-23 | Succeeds exactly for the value of some mode, with an index of `list(cls)` that holds that value. |
| BirdseyeConfig.Get | frigate/config/camera/birdseye.py:25-27 | Succeeds exactly for indices -3 to 2; non-negative ones pick that member, negative ones count from the end. |
| BirdseyeConfig.ModeOrder | frigate/config/camera/birdseye.py:16-19 | objects, motion and continuous have indices 0, 1 and 2, and distinct modes have distinct values. |
| BirdseyeConfig.IndexRoundTrips | frigate/config/camera/birdseye.py:21-27 | `get(get_index(m)) == m` for every mode, and `get_index(get(i))` is `i` for 0 to 2 and `i + 3` for -3 to -1. |
| BirdseyeConfig.DefaultInBounds | frigate/config/camera/birdseye.py:45-96 | The defaults (quality 8, inactivity 30, mode objects, scaling 2.0, heartbeat 0.0) lie within the field bounds. |
| CameraGroup.WithCameras | frigate/config/camera_group.py:27-33 | A camera string without "," becomes a one-element list; a string with "," and a list are kept; icon and order are untouched. |
| Camera.RecolouredAt | frigate/config/camera/camera.py:202-208 | The first `n` zones and no others are present, zone i with colour i. |
| Camera.LaterZoneNotFirst | frigate/config/camera/camera.py:206-208 | A zone past the first `n` is not among them. |
| Camera.SetColour | frigate/config/camera/camera.py:206 | `{**z, "color": color}` has that colour and keeps every other field of the zone. |
| Camera.ZonesColoured | frigate/config/camera/camera.py:202-208 | With a colour for every zone, the zones keep their order, zone i gets colour i and keeps its other fields, and nothing but the zones changes. |
| Camera.ShortPaletteDropsZones | frigate/config/camera/camera.py:205-208 | With a palette shorter than the zone list, the zones past its end are dropped, as `zip` does. |
| Camera.LoneInputRecordsAndDetects | frigate/config/camera/camera.py:210-220 | A lone input gets roles record and detect, plus audio exactly when it had audio; everything else is kept; with several inputs nothing changes. |
| Camera.PreparedConfig | frigate/config/camera/camera.py:200-222 | The zone colouring keeps the ffmpeg inputs in the shape the role step reads. |
| Camera.PreparedConfigComposed | frigate/config/camera/camera.py:200-222 | The prepared settings: zones in order with zone i given colour i (palette long enough), a lone input recording and detecting and keeping "audio" exactly when its roles mentioned it, several inputs left alone, nothing else changed. |
| Camera.NonEmpty | frigate/config/camera/camera.py:329 | The command keeps exactly the parts that are not "", in order. |
| Camera.NoCommandIff | frigate/config/camera/camera.py:254-285 | No command exactly when the input neither detects nor records with recording on; the only error is recording a camera without a name. |
| Camera.CommandShape | frigate/config/camera/camera.py:319-329 | Every command has no empty part and reads its input after "-i"; a detect input's command ends with "pipe:". |
| Camera.RecordBeforeDetect | frigate/config/camera/camera.py:256-281 | For an input that records and detects, the record outputs and the segment path come before the detect outputs. |
| Camera.HwaccelOnlyForDetect | frigate/config/camera/camera.py:287-323 | For an input without the detect role the command does not depend on the decode or scale presets, the hwaccel settings or the GPU index. |
| Camera.CommandsComplete | frigate/config/camera/camera.py:242-252 | The list fails exactly when some input fails; otherwise every entry is one input's command with its roles, and every input with a command has an entry. |
| Camera.CommandsCount | frigate/config/camera/camera.py:242-252 | No more entries than inputs, and one per input when every input detects or records. |
| Camera.CameraConfig.constructor | frigate/config/camera/camera.py:200-222 | The camera keeps its settings, and no command list is computed yet. |
| Camera.CameraConfig.FrameShape | frigate/config/camera/camera.py:224-226 | The frame shape is (detect height, detect width). |
| Camera.CameraConfig.FrameShapeYuv | frigate/config/camera/camera.py:228-230 | The width is kept and the height is one and a half times the detect height, rounded down. |
| Camera.CameraConfig.FormattedName | frigate/config/camera/camera.py:236-240 | The friendly name when set; "" for an unnamed camera; otherwise the title-cased name of the same length. |
| Camera.CameraConfig.GetFfmpegCmd | frigate/config/camera/camera.py:254-329 | The command built step by step is the one `FfmpegCmd` specifies. |
| Camera.CameraConfig.CreateFfmpegCmds | frigate/config/camera/camera.py:242-252 | Once computed the list is kept; otherwise it becomes the command list of all inputs, or stays unset with the error of a failing input. |
| Camera.CommandsStep | frigate/config/camera/camera.py:246-251 | The list for one more input adds that input's entry, if it has a command. |
| Camera.PrefixErrStays | frigate/config/camera/camera.py:246-251 | Once some input fails, the whole list fails with that error. |
| Chat.AssistantMessageShape | frigate/api/chat.py:503-519 | The assistant message has role "assistant" and the reply's content (null when absent), and a `tool_calls` key exactly when the reply has tool calls. |
| Chat.ToolMessageShape | frigate/api/chat.py:546-612 | The tool message has role "tool", answers its call by id, and carries the tool's result, or the error dict when the tool failed. |
| Chat.LoopWithBounds | frigate/api/chat.py:483-634 | The loop stops within `max_iterations` tool turns, calls the provider at most that many times, keeps the initial conversation as a prefix and never answers "not configured". |
| Chat.LoopWithFailed | frigate/api/chat.py:494-501 | An "error" reply ends the loop right after the provider call that gave it, adding nothing for that turn, after whole tool turns only. |
| Chat.LoopWithAtBound | frigate/api/chat.py:622-634 | Reaching the bound answers with the fixed message, finish reason "length" and `tool_iterations == max_iterations`, after exactly that many provider calls, each of which asked for tools. |
| Chat.LoopWithFinal | frigate/api/chat.py:521-535 | A reply without tool calls ends the loop: one assistant message is added, and the answer carries its content, its finish reason (default "stop") and the tool turns completed before it. |
| Chat.ExecuteToolCalls | frigate/api/chat.py:544-614 | The loop collects one tool message per call, in call order. |
| Chat.RunToolLoop | frigate/api/chat.py:475-634 | The loop as written yields the outcome, conversation, iteration count and provider calls the loop function specifies. |
| ChatEndpoint.CameraLinesListed | frigate/api/chat.py:402-413 | A line is listed exactly when it describes an allowed camera that is configured, with its friendly name or title-cased id; there are no more lines than allowed cameras. |
| ChatEndpoint.CollectCameraLines | frigate/api/chat.py:402-413 | The loop builds exactly the listed lines, in allowed-camera order. |
| ChatEndpoint.CamerasSection | frigate/api/chat.py:415-421 | The cameras section is empty exactly when no camera is listed. |
| ChatEndpoint.LiveImageNote | frigate/api/chat.py:423-429 | The live image note is empty exactly when no live image camera is given or it is "". |
| ChatEndpoint.SystemPromptShape | frigate/api/chat.py:431-437 | The prompt opens with the fixed introduction and ends with the cameras section followed by the live image note. |
| ChatEndpoint.RequestMessagesEach | frigate/api/chat.py:446-473 | Every caller message keeps its place; the one that gets the live image is the first user-role message, when a live image is asked for. |
| ChatEndpoint.BuildConversation | frigate/api/chat.py:439-473 | The conversation is the system message followed by the caller messages as dicts. |
| ChatEndpoint.RequestMessageFields | frigate/api/chat.py:447-471 | A sent message has the caller's role, a `tool_call_id` exactly when that is truthy, and as content its text or, when it gets the image and a frame URL exists, the text and image block. |
| ChatEndpoint.ImageOnFirstUserOnly | frigate/api/chat.py:446-473 | Only the first user message can carry the image, and only with a live image and a frame URL; every other message keeps its text. |
| ChatEndpoint.ChatCompletion | frigate/api/chat.py:386-394 | Without a client the answer is "not configured" and the provider is never called; with one, the answer is the tool loop's over the initial conversation. |
| ChatEndpoint.ChatCompletionAsWritten | frigate/api/chat.py:386-430 | As written: an unconfigured request is answered "not configured"; every request with a bound client escapes with AttributeError on `include_live_image`, which the request model does not declare. |
| ChatEndpoint.LiveImageFieldMissingAsWritten | frigate/api/defs/request/chat_body.py:23-34 | For every valid request with a bound client the handler as written escapes, while the corrected endpoint runs the tool loop and never answers "not configured". |
| ChatEndpoint.CompletionBounds | frigate/api/defs/request/chat_body.py:29-34 | For a valid request the provider is called at most `max_tool_iterations` (at most 10) times, the system message stays first with the caller messages after it in order, and a bound client never answers "not configured". |
| ChatTools.TimeBound | frigate/api/chat.py:141-158 | A missing or null bound stays None and another falsy one passes unchanged; a parsed string becomes its timestamp, with "Z" read as "+00:00"; a string that does not parse or a truthy non-string becomes None. |
| ChatTools.StringItems | frigate/api/chat.py:162-163 | The strings of a list, in order, exactly when every item is a string. |
| ChatTools.ZonesArg | frigate/api/chat.py:161-165 | A list of strings is comma-joined and a list with a non-string fails; missing or null becomes "all"; anything else passes unchanged. |
| ChatTools.SearchQueryDefaults | frigate/api/chat.py:168-178 | A missing camera or label means "all", a missing limit 10 and missing zones "all"; a given camera, label and limit reach their fields unchanged, given after and before become their parsed time bounds, and the query fails exactly when the zones argument does. Singular and plural fields carry one value. |
| ChatTools.SearchObjects | frigate/api/chat.py:129-196 | A failure while building the query is raised; otherwise the answer is the events response, or a 500 with `success: false` when the query raises. |
| ChatTools.DetectionsAreCurrent | frigate/api/chat.py:263-271 | A detection is reported exactly when a tracked object of the current frame has that summary. |
| ChatTools.CollectDetections | frigate/api/chat.py:258-271 | The loop collects exactly the detections of the current frame. |
| ChatTools.LiveContextChecksAccessFirst | frigate/api/chat.py:239-242 | A camera outside the caller's list gets the access error, with no detections, whatever the system's state. |
| ChatTools.LiveContextReportsCurrentFrame | frigate/api/chat.py:249-277 | An allowed, configured camera with a state reports its name and frame time, and only the detections of that frame. |
| ChatTools.UnknownToolIsErrorResult | frigate/api/chat.py:355-356 | An unknown tool name gives an error result, never an exception. |
| ChatTools.SearchResultReadBack | frigate/api/chat.py:337-349 | When the response body decodes, `search_objects` returns the events content itself, or the error content when the query raised. |
| ChatTools.ExecuteTool | frigate/api/chat.py:205-231 | Only `search_objects` runs; any other name is a 400 with `success: false`, the message and the tool name. |
| ChatTools.LiveFrameUrl | frigate/api/chat.py:286-323 | A URL exactly when the camera is allowed, configured and has a state, and a frame could be grabbed; it is the JPEG data-URL prefix followed by the encoded frame. |
| ConfigMigration.BelowTransitive | frigate/util/config.py:55-106 | Python's string `<` is transitive. |
| ConfigMigration.BelowIrreflexive | frigate/util/config.py:55-106 | No version is below itself. |
| ConfigMigration.Consecutive | frigate/util/config.py:55-106 | Each step's target is below the next step's. |
| ConfigMigration.TargetsAscending | frigate/util/config.py:55-106 | The targets 0.14, 0.15-0, 0.15-1, 0.16-0, 0.17-0 and 0.18-0 are in strictly increasing string order. |
| ConfigMigration.DueFrom | frigate/util/config.py:55-106 | Every target listed as due is above the running version. |
| ConfigMigration.AllDue | frigate/util/config.py:55-106 | Once the target at a step is due, every later target is due as well. |
| ConfigMigration.StepsRunWhenBelow | frigate/util/config.py:55-106 | A step runs exactly when the starting version is below its target; the steps run in chain order, each once. |
| ConfigMigration.DueAfter | frigate/util/config.py:55-106 | After a due step moves the version to its target, the same later steps are due as from the version before. |
| ConfigMigration.NothingDueAtCurrent | frigate/util/config.py:46-50 | Nothing is below the current version 0.18-0, so a config at it is never migrated. |
| ConfigMigration.BelowFirstNotCurrent | frigate/util/config.py:46-55 | A config below 0.14 is not at the current version, so it is not returned early. |
| ConfigMigration.ExportRenames | frigate/util/config.py:63-71 | Exactly the export names holding "@" are renamed, each to the name with "_" in place of "@". |
| ConfigMigration.RenameExports | frigate/util/config.py:63-71 | The renaming loop produces exactly those renames, in listing order. |
| ConfigMigration.RunNext | frigate/util/config.py:55-106 | A due step dumps its result, and the chain carries on from its target. |
| ConfigMigration.RunChain | frigate/util/config.py:55-106 | The chain loop dumps what the chain function specifies, and renames export files only when the 0.14 step runs and the export directory exists. |
| ConfigMigration.MigrateFrigateConfig | frigate/util/config.py:29-108 | As written: nothing for a read-only file, an empty load or a config at 0.18-0; otherwise every step reads the same `config` variable with the earlier steps' in-place edits. |
| ConfigMigration.LaterStepsKeepReview | frigate/util/config.py:198-589 | The steps from 0.15-0 on never change the top-level `review` section, either in what they return or in place. |
| ConfigMigration.LastDumpKeepsReview | frigate/util/config.py:55-106 | When every later step runs and none touches `review`, the last dump has the `review` of the dict handed to the first of them. |
| ConfigMigration.AllStepsDump | frigate/util/config.py:55-106 | A config below 0.14 dumps once for each of the six steps. |
| ConfigMigration.LastDumpAfterAllSteps | frigate/util/config.py:55-106 | A config below 0.14 runs all six steps, and the last dump has the `review` of the dict handed to the 0.15-0 step. |
| ConfigMigration.ZonesLostAsWritten | frigate/util/config.py:55-106 | A config from before 0.14 with `record.events.required_zones` and no `review` ends with no `review` in the last dump, and with the zones removed from `record.events`. |
| ConfigMigration.ZonesKeptThreaded | frigate/util/config.py:111-195 | Handing each step the previous step's result, the same config ends with its zones in `review.alerts.required_zones`. |
| MigrationSteps.EachEntry | frigate/util/config.py:158-192 | Rewriting every entry of a dict keeps its keys and their order, and gives each key the rewritten value. |
| MigrationSteps.WithCameras | frigate/util/config.py:158-192 | Replacing the cameras by their migrated copies changes no other section. |
| MigrationSteps.Finish | frigate/util/config.py:114-195 | The returned copy carries the step's global edits, the shared cameras and the new version; the handed-in dict carries the in-place edits and the same cameras dict. |
| MigrationSteps.DropRtmp | frigate/util/config.py:152-156 | Neither the nested rtmp output args nor the top-level rtmp key is left. |
| MigrationSteps.Global014 | frigate/util/config.py:114-156 | The 0.14 global edits leave `review` and `record` as the zone move made them. |
| MigrationSteps.Shared014 | frigate/util/config.py:114-156 | In place, the handed-in dict gets no new `review` section, and with required zones its record loses them. |
| MigrationSteps.SplitEvents | frigate/util/config.py:201-292 | Splitting `record.events` changes no section but `record`. |
| MigrationSteps.DetectorModelPath | frigate/util/config.py:302-307 | A detector with a model path set gets it as `model_path` and loses `model`; any other detector is kept. |
| MigrationSteps.Global0151 | frigate/util/config.py:298-310 | Moving the model paths changes no section but `detectors`. |
| MigrationSteps.LiveStreams | frigate/util/config.py:326-334 | A live `stream_name` n becomes `streams` {n: n}; a live section without one is kept. |
| MigrationSteps.RetainSplit | frigate/util/config.py:362-383 | `record.retain` is gone after the split, every key other than `retain`, `continuous` and `motion` is kept, and without retention days `continuous` and `motion` are left as they were. |
| MigrationSteps.LegacyMask | frigate/util/config.py:437-483 | The converted mask is always a dict. |
| MigrationSteps.MaskEntries | frigate/util/config.py:468-481 | The entries of a list of masks form a dict. |
| MigrationSteps.ConvertLegacyMask | frigate/util/config.py:437-483 | Building the result entry by entry gives the converted mask. |
| MigrationSteps.MaskKeyInjective | frigate/util/config.py:457-471 | Different mask numbers give different mask ids. |
| MigrationSteps.MaskEntriesBeyond | frigate/util/config.py:469-481 | No mask id is numbered past the length of the list. |
| MigrationSteps.MaskEntriesAt | frigate/util/config.py:469-481 | The id numbered i+1 holds item i, enabled, named after its position and label, exactly when the item is truthy. |
| MigrationSteps.MaskEntriesOnlyKeys | frigate/util/config.py:469-481 | Every id of a converted list numbers a truthy item's position. |
| MigrationSteps.LegacyMaskScalar | frigate/util/config.py:450-467 | A falsy mask becomes `{}`, and a string the single entry numbered 1. |
| MigrationSteps.CleanRecord | frigate/util/config.py:498-509 | The record cleanup changes no section but `record`. |
| MigrationSteps.ConvertMasks | frigate/util/config.py:511-537 | The mask conversions change no section but `motion` and `objects`. |
| MigrationSteps.MoveZonesEffect | frigate/util/config.py:116-138 | With required zones: they reach `review.alerts.required_zones` unless that is already set, they leave `record.events`, and an emptied `events` or `record` is removed. |
| MigrationSteps.MoveZonesOnlyWithZones | frigate/util/config.py:119 | A section without required zones is left as it is. |
| MigrationSteps.ZonesMovedBy014 | frigate/util/config.py:111-138 | On a config with required zones and no `review`, the returned dict gets the zones under `review.alerts`, while the handed-in dict loses them and gets no `review`. |
| MigrationSteps.NoRtmpAfter014 | frigate/util/config.py:152-190 | After the 0.14 step no rtmp setting is left on the global config or on any camera. |
| MigrationSteps.KeepsReview0150 | frigate/util/config.py:198-295 | The 0.15-0 step leaves the top-level `review` alone, in its result and in place. |
| MigrationSteps.KeepsReview0151 | frigate/util/config.py:298-310 | So does the 0.15-1 step. |
| MigrationSteps.KeepsReview0160 | frigate/util/config.py:313-354 | So does the 0.16-0 step. |
| MigrationSteps.KeepsReview0170 | frigate/util/config.py:357-434 | So does the 0.17-0 step. |
| MigrationSteps.KeepsReview0180 | frigate/util/config.py:486-589 | So does the 0.18-0 step. |
| MigrationSteps.RetentionOf | frigate/util/config.py:205-216 | Legacy `retain.default` becomes `retain.days`; `pre_capture` and `post_capture` carry over exactly when they are set. |
| MigrationSteps.SplitEventsEffect | frigate/util/config.py:201-246 | Alerts get the legacy retention; detections get it too unless alerts have required zones and there is no detections section, in which case they keep the continuous days (1 when unset); `events` is removed. |
| MigrationSteps.DetectorsMoved0151 | frigate/util/config.py:302-307 | Every detector with a model path set gets it as `model_path`; the others are kept. |
| MigrationSteps.DetectEnabled0160 | frigate/util/config.py:318-321 | `detect.enabled` is set to true when unset and a set value is kept; a config without `detect` does not get one in place. |
| MigrationSteps.WeightsOnce | frigate/util/config.py:339-348 | Five movement weights become six, and migrating the result again changes nothing. |
| MigrationSteps.LiveStreams0160 | frigate/util/config.py:323-334 | On a camera, a live `stream_name` n becomes `streams` {n: n}. |
| MigrationSteps.RetainSplitDays | frigate/util/config.py:362-383 | With days set, mode "all" (the default) keeps continuous recordings that long, and globally motion recordings too; another mode keeps motion only, the other section at 0 days; without days the only change is that `retain` is removed; the rest of `record` is kept. |
| MigrationSteps.GenaiPartition | frigate/util/config.py:393-397 | Each genai key lands in exactly one of the two parts, with its value. |
| MigrationSteps.GenaiSplit0170 | frigate/util/config.py:386-400 | The connection settings stay in `genai` and the rest moves to `objects.genai`; the handed-in dict keeps its genai section. |
| MigrationSteps.GenaiWrapped0180 | frigate/util/config.py:491-495 | A single provider becomes the provider `default` with every role and all its settings; another genai section is kept. |
| ConfigUtil.FindConfigFile | frigate/util/config.py:20-26 | The `CONFIG_FILE` value, or `config.yml` in the config directory; when no file is there, the same path with "yml" replaced by "yaml". |
| ConfigUtil.MissingPathWithoutYml | frigate/util/config.py:23-24 | A missing file whose path does not mention "yml" is looked for under the same path. |
| ConfigUtil.YmlBecomesYaml | frigate/util/config.py:23-24 | A missing `x.yml` is looked for as `x.yaml` when the rest of the path does not mention "yml". |
| ConfigUtil.WholePart | frigate/util/config.py:671 | `int(x)` of a non-negative number is its whole part. |
| ConfigUtil.AreaToPixels | frigate/util/config.py:650-677 | An int is already pixels; a float in [0.000001, 0.99] is that fraction of height times width, at least 1; another float is a ValueError and any other value a TypeError. |
| ConfigUtil.AreaFractionPixels | frigate/util/config.py:669-671 | A fraction converts to at least one pixel and to no more than the part of the frame it names. |
| ConfigUtil.AreaPixelsMonotone | frigate/util/config.py:669-671 | A larger fraction never gives fewer pixels. |
| ConfigUtil.StreamInfoRetriever.constructor | frigate/util/config.py:681-682 | The cache starts empty. |
| ConfigUtil.StreamInfoRetriever.GetStreamInfo | frigate/util/config.py:684-690 | A path probed before answers from the cache, unchanged; a new path answers with what probing yields, which is cached; afterwards the cache holds the answer. |
| GenAIManager.Bound | frigate/genai/manager.py:48-74 | A role is bound exactly when some entry builds a client that claims it. |
| GenAIManager.LastClaimerWins | frigate/genai/manager.py:48-74 | When several entries claim a role, the last of them is bound. |
| GenAIManager.BoundNext | frigate/genai/manager.py:68-74 | One more entry takes the role if it claims it; otherwise the binding stays. |
| GenAIManager.SkippedEntryIrrelevant | frigate/genai/manager.py:49-66 | An entry with no provider, an unknown provider or a failing constructor changes no binding. |
| GenAIManager.GenAIClientManager.constructor | frigate/genai/manager.py:23-28 | The manager keeps the config, and every role is bound as the entries say. |
| GenAIManager.GenAIClientManager.UpdateConfig | frigate/genai/manager.py:30-74 | After clearing the three roles and walking the entries, every role is bound to the client of the last entry claiming it. |
| GenAIManager.GenAIClientManager.BindRoles | frigate/genai/manager.py:68-74 | Every role the client lists is bound to it, and the other roles are kept. |
| GenAIManager.GenAIClientManager.ToolClient | frigate/genai/manager.py:76-79 | The tool client is the one bound to the tools role. |
| GenAIManager.GenAIClientManager.VisionClient | frigate/genai/manager.py:81-84 | The vision client is the one bound to the vision role. |
| GenAIManager.GenAIClientManager.EmbeddingsClient | frigate/genai/manager.py:86-89 | The embeddings client is the one bound to the embeddings role. |
| GenaiUtils.ParseToolCalls | frigate/genai/utils.py:10-45 | The loop builds the result the parse function specifies, entry by entry. |
| GenaiUtils.WireCallShape | frigate/genai/utils.py:59-69 | Each emitted call has type "function", its id and name, and its arguments JSON-encoded, with falsy arguments sent as `{}`. |
| GenaiUtils.WireCalls | frigate/genai/utils.py:59-69 | One wire call per call, in order. |
| GenaiUtils.BuildAssistantMessage | frigate/genai/utils.py:48-70 | The message has role "assistant" and the content, and a `tool_calls` list exactly when the calls are given and non-empty. |
| GenaiUtils.Normalized | frigate/genai/utils.py:29-43 | Parsing gives back each call's id and name, with falsy arguments as `{}`. |
| GenaiUtils.ParseWireCall | frigate/genai/utils.py:26-43 | Parsing a wire call gives back its id, name and arguments, falsy ones as `{}`. |
| GenaiUtils.ParseWireCalls | frigate/genai/utils.py:26-44 | Parsing the wire calls gives back the normalised calls. |
| GenaiUtils.BuildThenParse | frigate/genai/utils.py:10-70 | Building an assistant message and parsing its tool calls again gives back the calls that went in, falsy arguments as `{}`, and exactly the calls when all arguments are truthy; the premise is only that `json.loads` reads back what `json.dumps` wrote for each call's arguments. |
| GenaiUtils.ParseNoCalls | frigate/genai/utils.py:22-45 | Missing, non-list and empty `tool_calls` all give None, and None comes only from those. |
| GenaiUtils.ParseEntriesShape | frigate/genai/utils.py:25-45 | One parsed call per entry, in order, each the parse of its own entry; the parse fails exactly when some entry's does. |
| GenaiUtils.EntryDefaults | frigate/genai/utils.py:27-43 | A missing id or name becomes "", missing or empty arguments parse as `{}` (as `json.loads("{}")` does), and undecodable arguments become `{}`. |
| ProviderCommon.DefaultConfig | frigate/config/camera/genai.py:26-68 | A bare entry uses model "gpt-4o", no provider, the roles embeddings, vision and tools, and empty provider and runtime options. |
| ProviderCommon.OpenAIToolChoice | frigate/genai/openai.py:137-144 | Only "none", "auto" and "required" are sent, unchanged; any other choice sends none. |
| ProviderCommon.DerivedFinishReason | frigate/genai/openai.py:206-212 | Without a provider reason: "tool_calls" exactly when there are calls, "stop" exactly when there is content and no calls, "error" otherwise. |
| ProviderCommon.StripIfTruthy | frigate/genai/openai.py:181 | Content is None exactly when absent or empty, and otherwise the stripped text. |
| ProviderCommon.JoinedContent | frigate/genai/openai.py:322 | The stripped concatenation of the parts, None exactly when it is empty. |
| ProviderCommon.IntOf | frigate/genai/llama_cpp.py:103-105 | `int(v)` keeps an int, maps a bool to 0 or 1, and raises for null, lists and dicts. |
| ProviderCommon.PutSlot | frigate/genai/openai.py:306-319 | Storing a slot under a key keeps an existing key's place and puts a new key last. |
| ProviderCommon.PutSlotKeepsValid | frigate/genai/openai.py:306-319 | Storing a slot keeps every key listed exactly once. |
| ProviderCommon.PutSlotTwice | frigate/genai/openai.py:313-319 | Storing twice under one key is storing the second slot once. |
| ProviderCommon.CallsAt | frigate/genai/openai.py:326-341 | One call per key, in key order. |
| ProviderCommon.SlotsInOrder | frigate/genai/openai.py:326-341 | The conversion loop yields the calls of the slots in insertion order. |
| ProviderCommon.CallsAtEach | frigate/genai/openai.py:328-341 | The i-th call comes from the i-th slot opened, and text that does not decode stays a string. |
| OpenAI.ClientOptions | frigate/genai/openai.py:24-37 | The client options are the provider options without `context_size`, with a configured base URL added. |
| OpenAI.ListedContextSize | frigate/genai/openai.py:97-106 | The reported size is the length of a listed entry with the model's id and a non-zero length, and no earlier entry has both; none exactly when no listed entry has both. |
| OpenAI.DefaultContextSize | frigate/genai/openai.py:113-118 | 128000 exactly when the lower-cased model name contains "gpt", 8192 otherwise. |
| OpenAI.ContextSizeOrder | frigate/genai/openai.py:82-123 | The size is the `context_size` option when given, then the API's reported length, then the model-name default. |
| OpenAI.OpenAIClient.constructor | frigate/genai/openai.py:21-37 | The client keeps its config, gets the filtered options and has no cached size. |
| OpenAI.OpenAIClient.GetContextSize | frigate/genai/openai.py:82-123 | A cached size is returned unchanged; otherwise the resolved size is returned and cached. |
| OpenAI.OpenAIClient.ChatWithTools | frigate/genai/openai.py:125-233 | The request sent is the specified one; an exception gives the error reply and an answer its converted reply. |
| OpenAI.OpenAIClient.ChatWithToolsStream | frigate/genai/openai.py:235-372 | The request sent is the specified one with `stream`; if `create` raises, only the error message; a stream that ends yields its folded events, and one that raises part-way yields the deltas already sent and then the error message. |
| OpenAI.RaisedStreamShape | frigate/genai/openai.py:284-372 | A stream that raises part-way ends with exactly one message, the error reply, after the content deltas gathered before the raise, one per content piece in order. |
| OpenAI.RequestDropsContextSize | frigate/genai/openai.py:146-164 | `context_size` is never sent, and every other provider option is sent with its given value. |
| OpenAI.ConvertedCalls | frigate/genai/openai.py:184-204 | One converted call per SDK call. |
| OpenAI.ConvertToolCalls | frigate/genai/openai.py:184-204 | The loop converts the calls the function specifies, in order. |
| OpenAI.ConvertedCallsEach | frigate/genai/openai.py:186-204 | Each converted call has the SDK call's id and name, and arguments that do not decode become `{}`. |
| OpenAI.CompletionReplyCases | frigate/genai/openai.py:168-218 | No result or no choices is the error reply; otherwise content is stripped and None only when absent or empty, calls exist exactly when listed, and the finish reason is the provider's when given, else derived. |
| OpenAI.AccumulateDeltas | frigate/genai/openai.py:301-319 | The loop over one delta's fragments gives the accumulated slots. |
| OpenAI.FoldNext | frigate/genai/openai.py:284-319 | Folding one more chunk is one more step. |
| OpenAI.FoldInvariant | frigate/genai/openai.py:284-319 | The deltas yielded are the content parts gathered, in arrival order, and the slots stay well formed. |
| OpenAI.AccumulateKeepsSlots | frigate/genai/openai.py:302-319 | Accumulating fragments keeps every key listed once. |
| OpenAI.DeltaAccumulates | frigate/genai/openai.py:303-319 | A fragment appends its argument text to its index's slot, replaces id and name only when it supplies them, opens a new slot last, and leaves other slots alone. |
| OpenAI.StreamShape | frigate/genai/openai.py:284-351 | Content deltas in arrival order, then one final message; with any slot the calls are in first-seen order, undecodable text stays a string, and the finish reason is "tool_calls". |
| LlamaCpp.BaseUrl | frigate/genai/llama_cpp.py:37-41 | A URL exactly when one is configured and non-empty, and then a prefix of it (trailing "/" removed). |
| LlamaCpp.LlamaCppClient.constructor | frigate/genai/llama_cpp.py:28-41 | The client keeps its config, its options are the configured ones over the local defaults, and its provider is the trimmed base URL. |
| LlamaCpp.LlamaCppClient.InitProvider | frigate/genai/llama_cpp.py:31-41 | The options become the configured ones over temperature 0.7, repeat_penalty 1.05 and top_p 0.8, and the trimmed base URL is returned. |
| LlamaCpp.LlamaCppClient.ContextSize | frigate/genai/llama_cpp.py:103-105 | 4096 without a `context_size` option; otherwise `int` of the option, which can raise. |
| LlamaCpp.LlamaCppClient.BuildPayload | frigate/genai/llama_cpp.py:107-138 | The payload is the base request with every option except `context_size` on top. |
| LlamaCpp.LlamaCppClient.ChatWithTools | frigate/genai/llama_cpp.py:179-242 | Without a provider, the error reply and nothing is sent; otherwise the non-streaming payload is posted and the reply read from it. |
| LlamaCpp.LlamaCppClient.ChatWithToolsStream | frigate/genai/llama_cpp.py:244-350 | Without a provider, only the error message and nothing is sent. Otherwise the streaming payload (the options over the base request with `stream`) is posted; a request that raises before any line gives only the error message, and otherwise the events are those the body's lines specify, the error reply following the deltas when the body raises part-way. |
| LlamaCpp.PayloadFields | frigate/genai/llama_cpp.py:124-137 | Every option except `context_size` is sent; unless overridden, the messages and model are sent, `stream` only when streaming, and tools with the mapped choice only for a non-empty tool list. |
| LlamaCpp.BaseFields | frigate/genai/llama_cpp.py:115-133 | The base request has the messages, the model, `stream` only when streaming, and tools with the mapped choice only for a non-empty tool list. |
| LlamaCpp.ReplyOf | frigate/genai/llama_cpp.py:200-242 | An exception, no `choices` or an empty list gives the error reply. |
| LlamaCpp.MessageFinishReason | frigate/genai/llama_cpp.py:145-148 | The provider's reason when truthy, else "tool_calls" when calls were parsed, else "stop" with content, else "error". |
| LlamaCpp.MessageContent | frigate/genai/llama_cpp.py:142-144 | Content is stripped; only absent or empty content is None. |
| LlamaCpp.Insert | frigate/genai/llama_cpp.py:163 | Inserting adds exactly the one element. |
| LlamaCpp.InsertAscending | frigate/genai/llama_cpp.py:163 | Inserting into an ascending list keeps it ascending. |
| LlamaCpp.SortedKeys | frigate/genai/llama_cpp.py:163 | `sorted` gives the same keys in ascending order. |
| LlamaCpp.CallsInOrder | frigate/genai/llama_cpp.py:163-176 | One call per index, in the order given. |
| LlamaCpp.CallsInOrderAt | frigate/genai/llama_cpp.py:163-176 | The i-th call is the conversion of the slot at the i-th index. |
| LlamaCpp.StreamedToolCallsToList | frigate/genai/llama_cpp.py:155-177 | The loop builds exactly the list the conversion specifies. |
| LlamaCpp.SlotsToCallsOrder | frigate/genai/llama_cpp.py:155-177 | None without slots; otherwise one call per slot in ascending stream index, empty argument text read as `{}` and undecodable text as `{}`. |
| LlamaCpp.FragmentAccumulates | frigate/genai/llama_cpp.py:296-315 | A dict fragment with an int or bool index and its own truthy name and arguments is always folded, whatever its `function` is. A new index opens a slot last; the slot's argument text grows by the fragment's piece; its id changes only for a truthy one; other slots are untouched. |
| LlamaCpp.SlotKey | frigate/genai/llama_cpp.py:297-299 | An int index is its own slot key and a bool shares slot 1 or 0, as Python's dict keys do. |
| LlamaCpp.Texts | frigate/genai/llama_cpp.py:317 | Joining the kept content succeeds exactly when every part is a string, and then joins those strings in order. |
| LlamaCpp.FragmentsKeepSlots | frigate/genai/llama_cpp.py:296-315 | Folding fragments keeps every slot key listed once. |
| LlamaCpp.ApplyChunk | frigate/genai/llama_cpp.py:287-315 | A decoded chunk never stops the reading. A non-dict raises, and a chunk without choices changes nothing. Otherwise the first choice's truthy finish reason replaces the current one, and truthy content of any kind is kept and yielded as one delta (text, or the value itself). The fragments are folded into the slots, and a raise keeps what was yielded before it. |
| LlamaCpp.ReadLinesSnoc | frigate/genai/llama_cpp.py:277-315 | Reading one more line is one more step. |
| LlamaCpp.ReadPastEnd | frigate/genai/llama_cpp.py:281-282 | Once reading has stopped, later lines change nothing. |
| LlamaCpp.NonDataLinesSkipped | frigate/genai/llama_cpp.py:278-279 | Reading only the "data: " lines gives the same result. |
| LlamaCpp.DoneStopsReading | frigate/genai/llama_cpp.py:280-282 | Nothing after a `[DONE]` line is read. |
| LlamaCpp.StepLineYields | frigate/genai/llama_cpp.py:277-315 | A line can only add deltas, and what was yielded stays yielded. |
| LlamaCpp.ApplyChunkYields | frigate/genai/llama_cpp.py:293-295 | A chunk can only add deltas, and keeps what was yielded. |
| LlamaCpp.StepLineMatchesParts | frigate/genai/llama_cpp.py:293-295 | A line that keeps reading keeps one yielded delta per kept content value. |
| LlamaCpp.ReadLinesMatchParts | frigate/genai/llama_cpp.py:277-315 | Until reading stops, the deltas yielded are exactly those of the content kept, in order. |
| LlamaCpp.StepLineDone | frigate/genai/llama_cpp.py:280-282 | Only a `[DONE]` line stops the reading, and it changes nothing. |
| LlamaCpp.StepLineKeepsSlots | frigate/genai/llama_cpp.py:296-315 | A line keeps every slot key listed once. |
| LlamaCpp.ReadLinesKeepSlots | frigate/genai/llama_cpp.py:277-315 | However many lines were read, every slot key is listed once. |
| LlamaCpp.ReadOnlyDeltas | frigate/genai/llama_cpp.py:277-315 | Until the final message the stream yields only deltas. |
| LlamaCpp.StreamShape | frigate/genai/llama_cpp.py:264-350 | The last event is the single final message, and every earlier one is a delta yielded while reading. When the body raises before `[DONE]` the message is the error reply. When reading ends normally the deltas are those of the kept content; the message is the error reply when some content is not text, and otherwise its finish reason is "tool_calls" whenever a call was accumulated. |
| Ollama.ContextSize | frigate/genai/ollama.py:85-89 | `options.num_ctx` of the configured options, 4096 when either level is missing; a non-dict "options" raises. |
| Ollama.ContextSizeOnMerged | frigate/genai/ollama.py:21-89 | Reading the size from the merged options would give the same answer, since the local defaults carry no `num_ctx`. |
| Ollama.RequestMessageFields | frigate/genai/ollama.py:110-119 | The copy has the role (None when absent) and content ("" when absent), each optional key exactly when the caller's value is truthy, and no other key. |
| Ollama.RequestMessages | frigate/genai/ollama.py:108-120 | One copy per caller message. |
| Ollama.RequestMessagesEach | frigate/genai/ollama.py:108-120 | The i-th outgoing message is the copy of the i-th caller message. |
| Ollama.RequestMessagesNext | frigate/genai/ollama.py:109-120 | Copying one more message appends its copy. |
| Ollama.CopyMessages | frigate/genai/ollama.py:107-120 | The copy loop succeeds exactly when every message is a dict, and then gives the copies in order. |
| Ollama.RequestParamsFields | frigate/genai/ollama.py:122-137 | The provider options are merged last and sent as given; apart from them tools go out only when given, and tool_choice only with tools and only as "none", "auto" or "required". |
| Ollama.CallOfFallbacks | frigate/genai/ollama.py:156-174 | Missing id and name become ""; non-string or undecodable arguments become `{}`, and missing arguments give `{}`, the value `json.loads("{}")` returns. |
| Ollama.Calls | frigate/genai/ollama.py:153-174 | One converted call per raw call. |
| Ollama.CallsEach | frigate/genai/ollama.py:156-174 | The i-th call is the conversion of the i-th raw call. |
| Ollama.ConvertCalls | frigate/genai/ollama.py:153-174 | The loop succeeds exactly when no call makes `.get` raise, and then gives the converted calls in order. |
| Ollama.ResponseReplyCases | frigate/genai/ollama.py:141-191 | No response or no "message" is the error reply; otherwise content is stripped text, None when falsy; calls exactly when listed; the finish reason is "tool_calls" with calls, else "stop" with non-blank content, else "error". |
| Ollama.DoneIgnored | frigate/genai/ollama.py:176-185 | Both branches on "done" derive the same finish reason, so the reply does not depend on it. |
| Ollama.OllamaClient.constructor | frigate/genai/ollama.py:29-52 | The options are the configured ones over the local defaults; there is a client exactly when the model lookup neither reports an error nor raises. |
| Ollama.OllamaClient.ChatWithTools | frigate/genai/ollama.py:91-206 | Without a client, or when a message is not a dict, the error reply and nothing is sent; otherwise the request is the specified one and the reply is read from the answer, any exception giving the error reply. |
| Ollama.ReadReply | frigate/genai/ollama.py:141-191 | Reading the response gives the reply the response function specifies. |
| Gemini.HttpOptionsOverride | frigate/genai/gemini.py:22-43 | Every provider option is sent as given; the timeout in milliseconds and the retry policy are sent unless an option replaces them; nothing else is sent. |
| Gemini.TranslateNext | frigate/genai/gemini.py:94-137 | Translating one more message is one more step of the loop. |
| Gemini.TranslateFailureSticks | frigate/genai/gemini.py:92-137 | Once a message raises, later messages change nothing. |
| Gemini.TranslateMessages | frigate/genai/gemini.py:94-137 | The loop, editing the first content's text in place, gives the specified translation. |
| Gemini.TranslateWithoutSystem | frigate/genai/gemini.py:112-137 | Without system messages each message becomes one content at its own position: assistant as "model", tool as a function response, anything else as "user". |
| Gemini.TranslateKeepsEarlier | frigate/genai/gemini.py:100-137 | A later message changes nothing an earlier one produced, except the first content's text, which a system message prefixes. |
| Gemini.TranslateBounded | frigate/genai/gemini.py:94-137 | There are never more contents than messages. |
| Gemini.DeclarationsNext | frigate/genai/gemini.py:143-156 | Converting one more tool is one more step. |
| Gemini.DeclarationsFailureSticks | frigate/genai/gemini.py:143-156 | Once a tool raises, later tools change nothing. |
| Gemini.ConvertTools | frigate/genai/gemini.py:140-156 | The loop gives the specified declarations. |
| Gemini.DeclarationsAreFunctionTools | frigate/genai/gemini.py:143-156 | Only tools of type "function" are converted, one declaration each, in order. |
| Gemini.ToolMode | frigate/genai/gemini.py:159-172 | none, auto and required give NONE, AUTO and ANY, and exactly those send a tool config. |
| Gemini.ConfigParamsFields | frigate/genai/gemini.py:175-185 | Runtime options win; otherwise one candidate, tools exactly when some were converted, and a tool config exactly when a mode was chosen. |
| Gemini.ArgsOf | frigate/genai/gemini.py:216-222 | The arguments are always a dict. |
| Gemini.PartCalls | frigate/genai/gemini.py:206-230 | No more calls than parts. |
| Gemini.PartCallsShape | frigate/genai/gemini.py:206-230 | There is a call exactly when some part is a call part without text, and each call's id is its function name. |
| Gemini.LastText | frigate/genai/gemini.py:207-209 | The content comes from the text of some part, and is non-empty. |
| Gemini.PartsNext | frigate/genai/gemini.py:207-230 | One more part either replaces the text or adds a call. |
| Gemini.ExtractParts | frigate/genai/gemini.py:202-230 | The loop gives the last text, stripped, as content, and every call part as a call, in order. |
| Gemini.FinishFor | frigate/genai/gemini.py:233-253 | STOP gives "stop", exactly MAX_TOKENS gives "length", SAFETY and RECITATION give "error", and otherwise calls, content or an error decide. |
| Gemini.ResponseReplyCases | frigate/genai/gemini.py:194-259 | No response or no candidates is the error reply; otherwise calls exactly when some part is a call part, ids are the function names, and STOP gives "stop" even with calls. |
| Gemini.SlotNamed | frigate/genai/gemini.py:437-441 | The slot found carries the name; none found means no slot does. |
| Gemini.FindByName | frigate/genai/gemini.py:437-441 | The lookup loop finds the first slot with that name. |
| Gemini.FoldNext | frigate/genai/gemini.py:395-457 | Folding one more chunk is one more step. |
| Gemini.StepPartsNext | frigate/genai/gemini.py:417-457 | Folding one more part is one more step. |
| Gemini.StreamParts | frigate/genai/gemini.py:416-457 | The part loop of a chunk gives the specified stream state. |
| Gemini.CallAccumulates | frigate/genai/gemini.py:433-457 | A known name shares its slot, whose argument text grows by the JSON of non-empty arguments; a new name opens slot `len(slots)` with the name as id and name. |
| Gemini.CallSharesSlot | frigate/genai/gemini.py:437-457 | A call whose name has a slot opens none and changes only that slot's argument text. |
| Gemini.CallOpensSlot | frigate/genai/gemini.py:443-449 | A call with a new name opens the next slot. |
| Gemini.NewCallSlot | frigate/genai/gemini.py:443-457 | A new name's slot is opened and filled in one step. |
| Gemini.NamedSlotsKeys | frigate/genai/gemini.py:444 | The slot keys are exactly 0 to n-1. |
| Gemini.OpenKeepsNamed | frigate/genai/gemini.py:443-449 | Opening slot n under an unused name keeps the names distinct. |
| Gemini.PartsInvariant | frigate/genai/gemini.py:416-457 | Parts keep the slot names distinct, and each delta yielded is the gathered text at the same position. |
| Gemini.FoldInvariant | frigate/genai/gemini.py:395-457 | Over the stream, deltas match the gathered parts one for one, and slots are keyed 0, 1, … with distinct names. |
| Gemini.StreamShape | frigate/genai/gemini.py:385-489 | Deltas first, then one final message; with any slot there is one call per distinct function name in first-seen order, and the finish reason is "tool_calls". |
| Gemini.GeminiClient.constructor | frigate/genai/gemini.py:22-43 | The client keeps its config and its HTTP options. |
| Gemini.GeminiClient.BuildRequest | frigate/genai/gemini.py:92-185 | No request when translating the messages or tools raises; otherwise the specified request. |
| Gemini.GeminiClient.ChatWithTools | frigate/genai/gemini.py:81-276 | Any exception, building the request or from the call, gives the error reply; otherwise the reply read from the response. |
| Gemini.GeminiClient.ChatWithToolsStream | frigate/genai/gemini.py:278-512 | If building the request or opening the stream raises, only the error message; a stream that ends yields the folded chunk events, and one that raises part-way yields the deltas already sent and then the error message. |
| Gemini.RaisedStreamShape | frigate/genai/gemini.py:395-512 | A stream that raises part-way ends with exactly one message, the error reply, after the content deltas gathered before the raise, one per text part in order. |
| Go2rtcConfig.ExecSetting | docker/main/rootfs/usr/local/go2rtc/create_config.py:25-44 | The flag is the environment value, else the stripped secret file when the secrets directory is readable and holds it, else the options file's key; null when none applies. |
| Go2rtcConfig.ExecOffByDefault | docker/main/rootfs/usr/local/go2rtc/create_config.py:46-48 | Exec sources stay disabled when nothing sets the flag. |
| Go2rtcConfig.ExecFlagScalars | docker/main/rootfs/usr/local/go2rtc/create_config.py:46-48 | YAML `true` and `1` enable exec sources; `false`, `0` and a list do not. |
| Go2rtcConfig.ExecFlagIgnoresCase | docker/main/rootfs/usr/local/go2rtc/create_config.py:46-48 | The flag ignores case, so "TRUE" and "Yes" enable exec sources. |
| Go2rtcConfig.FillDefault | docker/main/rootfs/usr/local/go2rtc/create_config.py:75-78 | An unset section becomes {key: value}; a section whose key is unset gains it; a set key is kept; no other section changes. |
| Go2rtcConfig.DefaultCandidates | docker/main/rootfs/usr/local/go2rtc/create_config.py:95-101 | The internal candidate when discovered, then always "stun:8555" last. |
| Go2rtcConfig.Credential | docker/main/rootfs/usr/local/go2rtc/create_config.py:105-113 | A set credential is replaced by its substituted text, and fails exactly when the substitution does; an unset one leaves the config as it is. |
| Go2rtcConfig.FfmpegPath | docker/main/rootfs/usr/local/go2rtc/create_config.py:116-122 | "default" picks the bundled default version, a bundled version name its directory, any other value an installation directory; the path always ends in "/bin/ffmpeg". |
| Go2rtcConfig.LeadingSpaceIgnored | docker/main/rootfs/usr/local/go2rtc/create_config.py:138-140 | Leading whitespace does not hide a restricted source. |
| Go2rtcConfig.Format | docker/main/rootfs/usr/local/go2rtc/create_config.py:148-167 | Formatting succeeds exactly for a string whose substitution succeeds, and gives that text. |
| Go2rtcConfig.Formatted | docker/main/rootfs/usr/local/go2rtc/create_config.py:165-180 | Every source of a list is formatted, in order. |
| Go2rtcConfig.FilterSources | docker/main/rootfs/usr/local/go2rtc/create_config.py:163-180 | No more sources are kept than given, and with exec disallowed none of them is restricted. |
| Go2rtcConfig.FilterSourcesIsFilter | docker/main/rootfs/usr/local/go2rtc/create_config.py:163-180 | The list loop fails when formatting does, and otherwise keeps exactly the formatted sources that are not restricted, in order. |
| Go2rtcConfig.ExecAllowedKeepsAll | docker/main/rootfs/usr/local/go2rtc/create_config.py:168 | With exec allowed, nothing is dropped. |
| Go2rtcConfig.RestrictStreams | docker/main/rootfs/usr/local/go2rtc/create_config.py:143-189 | The stream loop leaves a dict. |
| Go2rtcConfig.RestrictStreamSafe | docker/main/rootfs/usr/local/go2rtc/create_config.py:143-189 | With exec disallowed, one stream ends removed, safe, or untouched. |
| Go2rtcConfig.StreamsRestricted | docker/main/rootfs/usr/local/go2rtc/create_config.py:143-189 | Every visited stream ends removed, safe or untouched, and every other stream is unchanged. |
| Go2rtcConfig.NoRestrictedSourceLeft | docker/main/rootfs/usr/local/go2rtc/create_config.py:143-189 | With exec disallowed, the stream loop leaves no restricted source behind. |
| Go2rtcConfig.FilterStreamList | docker/main/rootfs/usr/local/go2rtc/create_config.py:164-180 | The list loop of one stream gives the specified filtering. |
| Go2rtcConfig.RestrictStreamsLoop | docker/main/rootfs/usr/local/go2rtc/create_config.py:143-189 | Each named stream is restricted in turn, removed or replaced in the dict. |
| Go2rtcConfig.RestrictOne | docker/main/rootfs/usr/local/go2rtc/create_config.py:144-189 | A string is formatted and checked, a list filtered (and removed when nothing is left), anything else kept. |
| Go2rtcConfig.FillDefaults | docker/main/rootfs/usr/local/go2rtc/create_config.py:74-103 | CORS origin "*", the Home Assistant config, log format "text" and the WebRTC candidates are filled where unset; no other section changes. |
| Go2rtcConfig.FillFfmpegDefaults | docker/main/rootfs/usr/local/go2rtc/create_config.py:124-135 | The ffmpeg binary is filled where unset, and the RTSP input arguments only for libavformat older than 59; no other section changes. |
| Go2rtcConfig.FormatCredentials | docker/main/rootfs/usr/local/go2rtc/create_config.py:105-113 | The user name and password are substituted; a failed substitution is the KeyError exit; only `rtsp` changes. |
| Go2rtcConfig.LoopedStreams | docker/main/rootfs/usr/local/go2rtc/create_config.py:143-189 | The streams after the loop are a dict when present. |
| Go2rtcConfig.BirdseyeCommand | docker/main/rootfs/usr/local/go2rtc/create_config.py:195-196 | The birdseye restream is an "exec:" source. |
| Go2rtcConfig.WithBirdseye | docker/main/rootfs/usr/local/go2rtc/create_config.py:198-201 | The birdseye stream is added to non-empty streams, keeping the others, or is the only stream otherwise. |
| Go2rtcConfig.RestrictSection | docker/main/rootfs/usr/local/go2rtc/create_config.py:143-189 | The stream loop fails exactly when a source fails to format, with that source's error, and changes only `streams`. |
| Go2rtcConfig.PrepareGeneral | docker/main/rootfs/usr/local/go2rtc/create_config.py:74-113 | The defaults and then the credentials; fails exactly when a credential substitution does; other sections are kept. |
| Go2rtcConfig.Prepare | docker/main/rootfs/usr/local/go2rtc/create_config.py:74-135 | All defaults and credentials in the script's order; fails only with the KeyError exit of a credential. |
| Go2rtcConfig.AddBirdseye | docker/main/rootfs/usr/local/go2rtc/create_config.py:191-201 | The section's streams become the streams with the birdseye restream; nothing else changes. |
| Go2rtcConfig.CreateConfig | docker/main/rootfs/usr/local/go2rtc/create_config.py:23-205 | The written section has its defaults filled, credentials and streams formatted, restricted sources removed unless exec is allowed, and the birdseye restream when enabled; a failed credential substitution is the KeyError exit, and a failing stream source gives its own error (KeyError for a failed substitution, AttributeError for a list item that is not a string). |
| Go2rtcConfig.WrittenStreamsSafe | docker/main/rootfs/usr/local/go2rtc/create_config.py:143-201 | With exec disallowed, the written streams hold no restricted source but the birdseye restream the script adds itself. |
| Jobs.StatusName | frigate/jobs/job.py:13 | Each status has its own string; "queued" and "running" belong exactly to the active statuses. |
| Jobs.ActiveIffNotFinished | frigate/jobs/manager.py:29-70 | Every status is either active (queued, running) or finished (success, failed, cancelled), never both. |
| Jobs.Job.constructor | frigate/jobs/job.py:7-17 | A new job is queued, with no results, times or error. |
| Jobs.Job.ToDict | frigate/jobs/job.py:19-21 | The dict has every field in declaration order, the media sync fields after the base ones, with the status string, results and error. |
| Jobs.ToDictIdentity | frigate/jobs/job.py:8-21 | The dict carries the job's id and type, and its start and end times or null. |
| Jobs.ToDictMediaSync | frigate/jobs/media_sync.py:25-31 | A media sync job's dict also carries its dry-run flag, its media types in order and its force flag. |
| Jobs.FieldNamesDistinct | frigate/jobs/job.py:8-21 | No two fields of a job, base or media sync, share a name. |
| Jobs.ToDictShape | frigate/jobs/job.py:19-21 | Each field appears once in the dict, and the key order lists exactly the dict's keys. |
| Jobs.CurrentJobFound | frigate/jobs/manager.py:55-64 | A job made current is found by its id. |
| Jobs.ReplacedJobFound | frigate/jobs/manager.py:23-64 | A finished job replaced by another stays findable by its id; an unfinished one that was never archived is no longer found. |
| Jobs.JobRegistry.constructor | frigate/jobs/manager.py:10-13 | The registry starts with no current and no completed jobs. |
| Jobs.JobRegistry.SetCurrentJob | frigate/jobs/manager.py:23-35 | The job becomes its type's current job; the job it replaces is archived when finished and otherwise dropped. |
| Jobs.JobRegistry.ClearCurrentJob | frigate/jobs/manager.py:38-45 | A known type is cleared when it has no job, when no id is given or when the id is its current job's; otherwise nothing changes. |
| Jobs.JobRegistry.GetCurrentJob | frigate/jobs/manager.py:48-52 | The type's current job, or none. |
| Jobs.JobRegistry.GetJobById | frigate/jobs/manager.py:55-64 | The current job when its id matches, else the archived one; a job found has that id or is archived under it. |
| Jobs.JobRegistry.JobIsRunning | frigate/jobs/manager.py:67-70 | True exactly when the type has a current job that is queued or running. |
| MediaSyncJob.RequestedTypes | frigate/jobs/media_sync.py:114 | No list or an empty one means ["all"]; a non-empty list is kept. |
| MediaSyncJob.RequestedTypesSelect | frigate/jobs/media_sync.py:114 | The requested types select a media type exactly when they name it or "all". |
| MediaSyncJob.StartMediaSyncJob | frigate/jobs/media_sync.py:94-125 | While a media sync job is queued or running the request is refused and nothing changes; otherwise a new queued job with the requested settings becomes current, the one it replaces archived when finished, and its id is returned. |
| MediaSyncJob.Run | frigate/jobs/media_sync.py:42-81 | The job is marked running with its start time and broadcast; then it succeeds with the sync's results, or fails with the exception's text; the end time is set and the final state broadcast. |
| MediaSyncJob.GetCurrentMediaSyncJob | frigate/jobs/media_sync.py:128-130 | The current media sync job, or none. |
| MediaSyncJob.GetMediaSyncJobById | frigate/jobs/media_sync.py:133-135 | The media sync job with that id, current or archived. |
| Media.SyncResultDict | frigate/util/media.py:39-47 | The dict has media_type, the three counters, aborted and error, in that order, and no other key. |
| Media.SyncResultDictForgetsOnlyPaths | frigate/util/media.py:39-47 | Two results give the same dict exactly when they differ at most in their orphan paths. |
| Media.Unlinked | frigate/util/media.py:207-214 | No more files are counted deleted than there are paths. |
| Media.Concluded | frigate/util/media.py:265-308 | No orphans returns at once; more than half the checked files aborts unless forced; a dry run deletes nothing; otherwise only successful unlinks are counted; the type, the counters found and the error are kept. |
| Media.Unlink | frigate/util/media.py:295-302 | The loop adds exactly the number of paths whose unlink succeeds. |
| Media.Conclude | frigate/util/media.py:265-308 | The method's result equals Concluded. |
| Media.Unreferenced | frigate/util/media.py:260-263 | A path is an orphan exactly when it is the path of a listed file whose key is not known; no more orphans than files. |
| Media.CollectUnreferenced | frigate/util/media.py:260-263 | The loop collects exactly Unreferenced. |
| Media.Listed | frigate/util/media.py:620-636 | A listed file is exactly a name in the directory that the filter keeps, joined to the directory. |
| Media.SnapshotBase | frigate/util/media.py:251-255 | The base is the name minus the first of -clean.webp, -clean.png and .jpg it ends with, and the name itself when none fits. |
| Media.SnapshotFiles | frigate/util/media.py:244-256 | The snapshot files are exactly the names ending in .jpg, -clean.webp or -clean.png, with their bases. |
| Media.SnapshotsSync | frigate/util/media.py:225-310 | No more deleted than found; a dry run deletes nothing. |
| Media.SnapshotOrphans | frigate/util/media.py:234-263 | A path is reported exactly when it is a snapshot file whose base names no event with a snapshot. |
| Media.SyncEventSnapshots | frigate/util/media.py:225-310 | The method's result equals SnapshotsSync. |
| Media.ThumbnailOrphanByEvent | frigate/util/media.py:348-360 | A thumbnail is an orphan exactly when its event is gone or has an inline thumbnail; a file under another camera than its event's is kept. |
| Media.ThumbnailOrphans | frigate/util/media.py:348-360 | The orphans are exactly the listed thumbnails that ThumbnailOrphan selects. |
| Media.ThumbnailsSync | frigate/util/media.py:313-406 | A failing event query or directory scan gives nothing counted; a failing per-file event query, once a listed file reaches it, keeps only the listed-file count and the error; otherwise the orphan paths are exactly the listed thumbnails with no file-thumbnail event, no more are deleted than found and a dry run deletes nothing. |
| Media.SyncEventThumbnails | frigate/util/media.py:313-406 | The method's result equals ThumbnailsSync, including the early stop at the first file whose event query fails. |
| Media.ReviewSync | frigate/util/media.py:409-486 | No more deleted than found; a dry run deletes nothing. |
| Media.SyncReviewThumbnails | frigate/util/media.py:409-486 | The method's result equals ReviewSync. |
| Media.PreviewsSync | frigate/util/media.py:489-564 | No more deleted than found; a dry run deletes nothing. |
| Media.SyncPreviews | frigate/util/media.py:489-564 | The method's result equals PreviewsSync. |
| Media.ExportsSync | frigate/util/media.py:567-657 | No more deleted than found; a dry run deletes nothing. |
| Media.ExportOrphans | frigate/util/media.py:584-611 | An export video is reported exactly when no export row has it as its video path. |
| Media.SyncExports | frigate/util/media.py:567-657 | The method's result equals ExportsSync. |
| Media.MissingRows | frigate/util/media.py:94-99 | A row is missing exactly when its file does not exist; order kept. |
| Media.NonEmptyPaths | frigate/util/media.py:103-109 | No more paths than rows. |
| Media.FilesNotIn | frigate/util/media.py:178-181 | A file is an orphan exactly when it is on disk and no row has its path. |
| Media.RowsPhase | frigate/util/media.py:89-156 | The missing rows are the orphans found, with their non-empty paths; no more deleted than found, none on a dry run or on an early return. It aborts iff the threshold trips unforced or the delete raises a DatabaseError. It records an error iff the rows are being purged and the temporary table, an insert or the delete raises; a temporary-table or insert failure is recorded as that error without an abort. Going on to the files means neither error nor abort. |
| Media.FilesPhase | frigate/util/media.py:158-222 | The files are counted as checked. A failing `.exists()` query on a non-empty listing records its error and changes nothing else. Otherwise the orphan paths are extended by the files no remaining row references; no more deleted than found; a dry run deletes no files. |
| Media.RecordingsSync | frigate/util/media.py:66-222 | No more deleted than found; a dry run deletes nothing; an abort carrying an error comes only from a DatabaseError raised by the delete. |
| Media.RecordingsSyncErrors | frigate/util/media.py:131-156 | Error with abort iff the purge reaches the delete and it raises a DatabaseError. A failing temporary table or insert, or a delete raising anything else, gives the error with `aborted` false and the row counters kept. A failing `.exists()` query gives its error, the files counted as checked and no file orphan. |
| Media.RecordingFileOrphans | frigate/util/media.py:176-184 | With no row missing its file, a file on disk is reported exactly when no row has its path. |
| Media.PagingRereadsFirstPage | frigate/util/media.py:89-95 | As written, with one row more than a page the scan reads the first thousand rows twice (pages 0 and 1 are both the first page) and never the last row. |
| Media.ScanCoversRows | frigate/util/media.py:89-95 | Read from page 1 to num_pages, the scan reads every row exactly once, in query order. |
| Media.CollectMissing | frigate/util/media.py:94-99 | The loop collects exactly MissingRows. |
| Media.CollectFilesNotIn | frigate/util/media.py:178-181 | The loop collects exactly FilesNotIn. |
| Media.SyncRecordingRows | frigate/util/media.py:89-156 | The method's result equals RowsPhase. |
| Media.SyncRecordingFiles | frigate/util/media.py:158-222 | The method's result equals FilesPhase. |
| Media.SweepFiles | frigate/util/media.py:176-213 | The files are counted as checked and the files not known to the table reported as orphans; deletions never exceed orphans, none on a dry run, and no error is added. |
| Media.CheckFiles | frigate/util/media.py:176-213 | The file loop, the threshold check and the unlink loop compute SweepFiles. |
| Media.SyncRecordings | frigate/util/media.py:66-222 | The method's result equals RecordingsSync. |
| Media.MediaTypesDistinct | frigate/util/media.py:717-724 | The six type names are distinct and none is "totals", so no entry of the dict overwrites another. |
| Media.Slots | frigate/util/media.py:673-680 | Six results, in the order the totals and the dict visit them. |
| Media.TotalOf | frigate/util/media.py:670-713 | Each total loop sums its counter over the present results. |
| Media.TotalDeletedAtMostFound | frigate/util/media.py:686-713 | When no result deleted more than it found, neither does the total. |
| Media.ToDict | frigate/util/media.py:715-739 | One entry per present result, in type order, with its counters and flags, then the totals. |
| Media.AllSyncedSelects | frigate/util/media.py:759-780 | A type runs exactly when "all" or its name is requested. |
| Media.AllSyncedTotals | frigate/util/media.py:742-788 | Over all types no more is deleted than found, and a dry run deletes nothing. |
| Media.SyncAllMedia | frigate/util/media.py:742-788 | The method's result equals AllSynced. |
| Media.DryRunDeletesNothing | frigate/util/media.py:701-713 | With nothing deleted in any result, the deleted total is 0. |
| Names.FormattedName | frigate/config/camera/camera.py:236-240 | A set friendly name is returned as it is; otherwise the identifier keeps its length, underscores and spaces become spaces, a letter starting a word is upper-cased and one continuing a word lower-cased. |
| MaskConfig.FormattedName | frigate/config/camera/mask.py:35-39 | The friendly name when set, else the mask id formatted like a camera name, of the same length. |
| MaskConfig.Serialise | frigate/config/camera/mask.py:41-47 | Coordinates are written in their raw form when there is one and as parsed otherwise; the raw field is always null. |
| MaskConfig.SerialiseStable | frigate/config/camera/mask.py:41-47 | A mask read back from the output serialises to the same output. |
| MotionConfig.DefaultInBounds | frigate/config/camera/motion.py:17-30 | The threshold default 30 and lightning default 0.8 lie inside their bounds. |
| MotionConfig.Serialise | frigate/config/camera/motion.py:71-83 | The mask is written as the raw masks when any were kept, as parsed otherwise; the raw field is left out of the output. |
| MotionConfig.SerialiseStable | frigate/config/camera/motion.py:75-83 | Output read back serialises to the same output. |
| MqttConfig.ValidateExactly | frigate/config/mqtt.py:40-87 | Settings are accepted unchanged exactly when the stats interval meets its bound and user and password are both set or both unset; a lone user or password is the password error. |
| MqttConfig.DefaultAccepted | frigate/config/mqtt.py:25-80 | The defaults (port 1883, prefix "frigate", qos 0) are accepted. |
| NginxSettings.SetDefault | docker/main/rootfs/usr/local/nginx/get_nginx_settings.py:31 | A key already present keeps its value; an absent one gets the default; other keys are untouched. |
| NginxSettings.PortOf | docker/main/rootfs/usr/local/nginx/get_nginx_settings.py:42-51 | A string setting gives the integer after its last ":", or the int() error; any other value is the port as it is. |
| NginxSettings.HostPortParsed | docker/main/rootfs/usr/local/nginx/get_nginx_settings.py:42-44 | "host:port" gives that port whatever colons the host holds. |
| NginxSettings.BarePortParsed | docker/main/rootfs/usr/local/nginx/get_nginx_settings.py:42-44 | A bare port string gives that port. |
| NginxSettings.MissingPortRefused | docker/main/rootfs/usr/local/nginx/get_nginx_settings.py:42-44 | An address ending in ":" is refused. |
| NginxSettings.ListenPorts | docker/main/rootfs/usr/local/nginx/get_nginx_settings.py:37-51 | Both addresses are defaulted to 5000 and 8971 and their ports added as internal_port and external_port, other keys untouched; an address without a port is a ValueError. |
| NginxSettings.Settings | docker/main/rootfs/usr/local/nginx/get_nginx_settings.py:30-60 | Exactly tls, ipv6, listen and base_path, in that order, with tls enabled and ipv6 disabled by default, or the ValueError of a bad port. |
| NginxSettings.SettingsObject | docker/main/rootfs/usr/local/nginx/get_nginx_settings.py:55-60 | The printed object has exactly the four settings in order. |
| NginxSettings.NoConfigDefaults | docker/main/rootfs/usr/local/nginx/get_nginx_settings.py:27-60 | With no configuration file TLS is on, IPv6 off, the ports are 5000 and 8971 and the base path is empty. |
| NginxSettings.GetNginxSettings | docker/main/rootfs/usr/local/nginx/get_nginx_settings.py:30-60 | The script's steps compute Settings. |
| ObjectConfig.SerialiseIgnoresParsedMask | frigate/config/camera/objects.py:51-57 | The mask is written as the raw mask and the raw mask as null, so two filters with the same raw mask serialise alike. |
| ObjectConfig.GenAIWithZones | frigate/config/camera/objects.py:101-128 | A string without a comma becomes a one-element list; anything else is kept; no other setting changes. |
| ObjectConfig.TrackedLabelsExactly | frigate/config/camera/objects.py:158-168 | A label is in the set exactly when the global track list or some camera's track list holds it. |
| ObjectConfig.ObjectSettings.constructor | frigate/config/camera/objects.py:131-153 | A new object config has its track list and no label set yet. |
| ObjectConfig.ObjectSettings.ParseAllObjects | frigate/config/camera/objects.py:158-168 | A known label set is kept; otherwise it becomes the union of all track lists. |
| ProxyConfig.ValidateSeparatorExactly | frigate/config/proxy.py:56-61 | A separator is refused exactly when it is given and is not one character long; an accepted one, and None, are kept. |
| ProxyConfig.DefaultAccepted | frigate/config/proxy.py:45-54 | The default separator "," passes; the default role is "viewer". |
| RecordApi.CameraFilter | frigate/api/record.py:69-77 | "all" selects every allowed camera; otherwise a camera is selected exactly when it is requested and allowed, and an empty selection is None. |
| RecordApi.CameraFilterWithinAllowed | frigate/api/record.py:390-406 | A request never selects a camera the caller may not see. |
| RecordApi.NoRecordings | frigate/api/record.py:326-360 | The sweep loop computes Sweep from after with no gap open. |
| RecordApi.SweepOrdered | frigate/api/record.py:326-360 | The gaps are in time order, non-empty, within the sweep's range, and no two touch. |
| RecordApi.OpenGapFirst | frigate/api/record.py:337-352 | A gap being built is the first one reported and reaches at least the current time. |
| RecordApi.SegmentStart | frigate/api/record.py:331-354 | The segment holding t starts at most at t and ends after it. |
| RecordApi.SweepExact | frigate/api/record.py:326-360 | From any point, a time is in a reported gap exactly when its segment has no recording. |
| RecordApi.NoRecordingsGaps | frigate/api/record.py:326-360 | The gaps are ordered and within [after, before]; a time lies in one exactly when its scale-long segment from after overlaps no recording. |
| RecordApi.NoRecordingsOneGap | frigate/api/record.py:326-360 | Without recordings the whole range is one gap. |
| RecordApi.SweepStallsWithoutScale | frigate/api/record.py:305-354 | With scale 0 or below the sweep never moves forward, so the loop never ends. |
| RecordApi.NoRecordingsAsWritten | frigate/api/record.py:284-316 | A request naming no allowed camera gets no gaps. Any other request raises when it lacks a truthy `after` or `before` (the clock default calls `datetime.datetime.now()` on the imported class), and always for the default camera value "all". A request naming cameras and giving both bounds behaves as intended. |
| RecordApi.NoRecordingsResponse | frigate/api/record.py:284-361 | A scale below 1 is refused; a missing or zero bound defaults to now (`before`) or an hour ago (`after`); "all" sweeps every allowed camera; no allowed camera gives no gaps; the gaps are ordered within the bounds. |
| RecordApi.AllCamerasFailsAsWritten | frigate/api/record.py:288-310 | For cameras "all" and non-zero bounds, the endpoint as written fails, while the corrected one sweeps every allowed camera. |
| RecordApi.MissingBoundsFailAsWritten | frigate/api/record.py:300-304 | For an allowed camera and no bounds, the endpoint as written fails, while the corrected one sweeps the last hour up to now. |
| RecordApi.OverlapsIntersects | frigate/api/record.py:415-422 | For a row and a range in order, the overlap clause is closed-interval intersection. |
| RecordApi.KeepSet | frigate/api/record.py:408-412 | A given, non-empty keep list is split on commas; otherwise nothing is kept. |
| RecordApi.Remaining | frigate/api/record.py:462-470 | A row remains exactly when its id is not among those deleted. |
| RecordApi.RemainingNothing | frigate/api/record.py:462 | Deleting no ids leaves the table unchanged. |
| RecordApi.RemainingBatches | frigate/api/record.py:463-470 | Deleting one batch of ids after another is deleting both. |
| RecordApi.ReportedCountOf | frigate/api/record.py:471 | The count written after the message prefix reads back as that count. |
| RecordApi.DeletionMessageReportsCount | frigate/api/record.py:471-474 | The success message states exactly the number of files deleted, with or without the error clause. |
| RecordApi.DeleteRecordings | frigate/api/record.py:373-479 | An empty or reversed range, or a requested camera list that names no allowed camera, is a 400 that deletes nothing (with `all` every allowed camera is selected, so no allowed camera is a 200 that deletes nothing); otherwise every selected file is unlinked, successes and failures counted, the selected rows deleted, and a 200 reports the count. |
| RecordApi.UnlinkFiles | frigate/api/record.py:448-460 | Every selected id is collected; deleted counts the successful unlinks; deleted plus errors is the number of rows. |
| RecordApi.DeleteRows | frigate/api/record.py:462-470 | The batched delete leaves exactly Remaining. |
| RecordApi.DeletionKeepsUnselected | frigate/api/record.py:414-470 | With unique ids, the table afterwards holds exactly the rows the query did not select. |
| RecordApi.HourOf | frigate/api/record.py:224-234 | The hour data keeps the row's hour, motion, objects and duration, and takes the hour's events from the event map, 0 when absent. |
| RecordApi.PeriodEntries | frigate/api/record.py:223-234 | One entry per hourly row. |
| RecordApi.NoHoursNoEvents | frigate/api/record.py:235-244 | A day without hours has no events. |
| RecordApi.AddHourGroups | frigate/api/record.py:235-244 | Adding one hour keeps the days grouped. |
| RecordApi.MergeDaysGroups | frigate/api/record.py:169-244 | Each day with an hour appears once, with the sum of its hours' events and its hours in order, whatever period they came from. |
| RecordApi.MergeHour | frigate/api/record.py:235-244 | A known day adds the hour's events and appends the hour; a new day is inserted with that hour alone. |
| RecordApi.MergePeriod | frigate/api/record.py:223-244 | The loop over a period's rows merges each into its day. |
| RecordApi.RecordingsSummary | frigate/api/record.py:146-246 | The returned days are the merge of every period's hourly rows, in insertion order. |
| RecordApi.AllRecordingsSummary | frigate/api/record.py:61-140 | No allowed camera gives an empty dict; otherwise the keys are exactly the local days holding a recording of a selected camera, in strictly ascending order, each mapped to true. |
| RecordApi.SelectedDays | frigate/api/record.py:136-137 | A day is listed exactly when some recording of a selected camera falls on it. |
| RecordApi.DaysInOrder | frigate/api/record.py:140 | `sorted` over the day keys: the same days, each once, strictly ascending. |
| RecordApi.InsertDay | frigate/api/record.py:140 | Inserting adds exactly the one day. |
| RecordApi.InsertDayAscending | frigate/api/record.py:140 | Inserting a new day into a strictly ascending list keeps it strictly ascending. |
| RecordApi.LexLessTotal | frigate/api/record.py:140 | Python's string order puts one of two different strings first. |
| RecordApi.LexLessTrans | frigate/api/record.py:140 | Python's string order is transitive. |
| RecordConfig.DefaultInBounds | frigate/config/camera/record.py:52-66 | The default windows of 5 seconds are inside the bounds. |
| RecordConfig.EventPreCapture | frigate/config/camera/record.py:144-149 | The event window is one of the two pre-capture windows and no smaller than either. |
| RecordConfig.ReviewPreCapture | frigate/config/camera/record.py:151-155 | Alerts use the alert window, everything else the detection window; neither exceeds the event window. |
| RecordConfig.ReviewPostCapture | frigate/config/camera/record.py:157-161 | Alerts use the alert window, everything else the detection window. |
| RecordConfig.CapturesInBounds | frigate/config/camera/record.py:52-161 | Within the bounds every window lies in [0, MAX_PRE_CAPTURE], post-capture is not negative, and the event window is some severity's review window. |
| ReviewConfig.AlertsWithZones | frigate/config/camera/review.py:35-58 | A bare zone name becomes a one-element list; anything else is kept; no other setting changes. |
| ReviewConfig.DetectionsWithZones | frigate/config/camera/review.py:75-98 | The same rule for detections. |
| Validators.ListFromNameCases | frigate/config/camera/review.py:52-58 | A string without a comma becomes the one-element list of it; anything else passes through. |
| Validators.ListFromNameSettled | frigate/config/camera/review.py:52-58 | A string that survives holds a comma, and validating again changes nothing. |
| Validators.PreferRawStable | frigate/config/camera/mask.py:41-47 | The raw form is written when non-empty, the value otherwise; serialising the output again gives the same output. |
| Timeline.SaveAllPending | frigate/timeline.py:64-70 | Entries of an unsaved event write nothing and wait in its cache after the earlier ones; other caches are untouched. |
| Timeline.SaveAllFlushed | frigate/timeline.py:71-79 | Entries of a saved event are written after its cached entries, in order, and its cache is gone; others untouched. |
| Timeline.SaveAllGrows | frigate/timeline.py:57-79 | Saving never removes or changes a written entry. |
| Timeline.Relabelled | frigate/timeline.py:122-123 | One relabelled entry per cached entry. |
| Timeline.RelabelledEntries | frigate/timeline.py:122-123 | Relabelling changes the sub label of every entry and nothing else. |
| Timeline.UpdateClassesDistinct | frigate/timeline.py:145-162 | The four update classes are different strings. |
| Timeline.UpdateEntryClasses | frigate/timeline.py:130-175 | entered_zone exactly when the zones changed while moving and in a zone; stationary or active exactly when the flag flipped, naming the new state; attribute exactly when attributes first appear. |
| Timeline.UpdateEntryOrder | frigate/timeline.py:130-175 | All entries belong to the event, in the order zone, stationary flip, attribute; an attribute entry names the first attribute. |
| Timeline.DetectEffect | frigate/timeline.py:81-184 | For an unsaved event nothing is written and the cache holds the earlier entries, relabelled on a sub label change, then the new ones; for a saved event those are written first, then the new ones, and the cache is cleared. |
| Timeline.ApiEntry | frigate/timeline.py:186-221 | An audio event gives a heard entry from audio, anything else an external entry from the API, with the event's id, time, label and sub label. |
| Timeline.TableAppendOnly | frigate/timeline.py:33-55 | Whatever the messages, every written entry stays in place. |
| Timeline.ApiBypassesCache | frigate/timeline.py:186-221 | API messages never touch the cache and write one entry on start and none otherwise. |
| Timeline.TimelineProcessor.constructor | frigate/timeline.py:21-31 | The processor starts with an empty cache and table. |
| Timeline.TimelineProcessor.InsertOrSave | frigate/timeline.py:57-79 | The new state is Save of the old one. |
| Timeline.TimelineProcessor.SaveEntries | frigate/timeline.py:176-179 | Saving the entries in order gives SaveAll. |
| Timeline.TimelineProcessor.RelabelEntries | frigate/timeline.py:116-123 | The loop gives Relabelled. |
| Timeline.TimelineProcessor.EntriesToSave | frigate/timeline.py:130-175 | The checks build exactly UpdateEntries. |
| Timeline.TimelineProcessor.HandleObjectDetection | frigate/timeline.py:81-184 | The new state is Detect of the old one. |
| Timeline.TimelineProcessor.HandleApiEntry | frigate/timeline.py:186-221 | The cache is untouched; one entry is appended exactly on start, and the result says so. |
| Timeline.TimelineProcessor.Run | frigate/timeline.py:33-55 | The queue's messages are handled in order, a tracked-object update without earlier data skipped. |
| ConfigTranslations.FieldTranslations | generate_config_translations.py:22-32 | label from a non-empty title, description from a non-empty description, and no other key. |
| ConfigTranslations.Target | generate_config_translations.py:62-68 | A reference names a definition exactly when it starts with "#/$defs/" and its last segment is defined. |
| ConfigTranslations.WithoutRoot | generate_config_translations.py:84-87 | Every key but label and description is kept. |
| ConfigTranslations.Own | generate_config_translations.py:49-53 | label from title and description from description, whatever their values, and nothing else. |
| ConfigTranslations.Overridden | generate_config_translations.py:70-82 | A referencing property's own title and description win over the definition's. |
| ConfigTranslations.PropertiesKeepOthers | generate_config_translations.py:57-180 | The property loop leaves every key outside the properties as it was. |
| ConfigTranslations.PropertiesEntry | generate_config_translations.py:57-180 | A visited property gets its entry exactly when it is non-empty. |
| ConfigTranslations.PropertiesShape | generate_config_translations.py:55-57 | The keys of a schema's properties dict are exactly its properties. |
| ConfigTranslations.RootWording | generate_config_translations.py:49-53 | A schema's title and description become its label and description unless a property of that name overrides them. |
| ConfigTranslations.PropertyTranslations | generate_config_translations.py:57-180 | Each property other than label and description appears exactly when its translations are non-empty, and then holds them. |
| ConfigTranslations.RefEntry | generate_config_translations.py:61-88 | A resolved reference takes the property's own wording where present, else the definition's, and the definition's nested entries. |
| ConfigTranslations.UnresolvedRefEmpty | generate_config_translations.py:61-88 | An unresolvable reference yields nothing, so the property is left out. |
| ConfigTranslations.ElementRefEntry | generate_config_translations.py:89-135 | A dict- or array-typed property keeps its wording and takes the nested entries of its element's definition. |
| ConfigTranslations.InlineEntry | generate_config_translations.py:136-149 | A property with inline properties keeps its wording and takes its nested entries. |
| ConfigTranslations.PlainEntry | generate_config_translations.py:136-141 | A plain property's translations are its own title and description only. |
| ConfigTranslations.TypeWording | generate_config_translations.py:215-220 | A detector type's label and description come from the definition's truthy title and description. |
| ConfigTranslations.DetectorEntry | generate_config_translations.py:202-230 | A non-string, foreign or unresolvable reference is skipped; otherwise the entry is stored only when non-empty and its nested keys are exactly its keys other than label and description. |
| ConfigTranslations.DetectorsTypes | generate_config_translations.py:202-230 | Over distinct types, a type has an entry exactly when its reference adds one, and then holds it. |
| ConfigTranslations.DetectorsKeys | generate_config_translations.py:221-226 | The reported keys are the union of the nested keys of all added entries. |
| ConfigTranslations.NestedKeysOfEntries | generate_config_translations.py:191-233 | The reported nested keys are exactly the non-root keys of the stored type entries. |
| ConfigTranslations.DetectorTranslations | generate_config_translations.py:191-233 | The loop over the mapping builds the type entries and nested keys. |
| ConfigTranslations.Sanitize | generate_config_translations.py:505-517 | Dicts keep their keys, lists their length, and every other value is left alone. |
| ConfigTranslations.SanitizeUnchanged | generate_config_translations.py:505-517 | A tree whose descriptions never mention the global wording is unchanged. |
| ConfigTranslations.Reworded | generate_config_translations.py:509-512 | A description starting with the global wording starts with the camera wording afterwards. |
| DetectorConfig.ParsePixelFormat | frigate/detectors/detector_config.py:19-23 | Exactly rgb, bgr and yuv are accepted, rgb as Rgb. |
| DetectorConfig.ParseInputTensor | frigate/detectors/detector_config.py:25-30 | Exactly nchw, nhwc, hwnc and hwcn are accepted. |
| DetectorConfig.ParseInputDType | frigate/detectors/detector_config.py:32-36 | Exactly float, float_denorm and int are accepted. |
| DetectorConfig.ParseModelType | frigate/detectors/detector_config.py:38-44 | Exactly the six model types are accepted. |
| DetectorConfig.LabelmapPath | frigate/detectors/detector_config.py:132 | Without a labelmap path the file /labelmap.txt is read. |
| DetectorConfig.PathJoin | frigate/detectors/detector_config.py:157 | An absolute name replaces the directory; otherwise the two are joined with one "/"; the result ends with the name. |
| DetectorConfig.LabelMapFromInfoOk | frigate/detectors/detector_config.py:206-209 | The info's label map converts exactly when every key is an integer. |
| DetectorConfig.LabelMapFromInfoLastWins | frigate/detectors/detector_config.py:206-209 | Every entry's key is in the map, holding the value of the last entry with that key. |
| DetectorConfig.ApplyShape | frigate/detectors/detector_config.py:180-188 | Size and enumerations come from the info in order; the first value outside its enumeration stops the load; the data type is read only when given. |
| DetectorConfig.ApplyLabels | frigate/detectors/detector_config.py:190-210 | rknn forces NHWC; configured attributes override the model's or the default ones; the label map merges over the model's labels. |
| DetectorConfig.NotPlusUnchanged | frigate/detectors/detector_config.py:151-152 | A path that is not plus:// leaves everything unchanged. |
| DetectorConfig.PlusPathRewritten | frigate/detectors/detector_config.py:155-178 | A plus path becomes the model id in the cache directory, and an unsupported detector is refused with nothing else changed. |
| DetectorConfig.LoadedFields | frigate/detectors/detector_config.py:148-210 | A successful load takes size, pixel format and model type from the info, forces NHWC for rknn, merges the attribute and label maps with the configured ones winning, and recomputes the attribute sets. |
| DetectorConfig.AttributesExactly | frigate/detectors/detector_config.py:137-146 | An attribute is collected exactly when some label lists it; logos are those other than face and license_plate. |
| DetectorConfig.ModelConfig.constructor | frigate/detectors/detector_config.py:128-146 | The label file's labels overridden by the configured map, the attribute and logo sets, and an empty colour map. |
| DetectorConfig.ModelConfig.CreateColormap | frigate/detectors/detector_config.py:223-231 | Colours only for enabled labels that are not attributes, each from the palette, every such label coloured when the palette is long enough; nothing else changes. |
| DetectorConfig.ModelConfig.CollectAttributes | frigate/detectors/detector_config.py:139-142 | The loop gathers exactly the attribute set. |
| DetectorConfig.ModelConfig.CheckAndLoadPlusModel | frigate/detectors/detector_config.py:148-211 | The fields become those LoadPlusModel computes; the colour map is untouched. |
| DetectorConfig.ModelConfig.LoadShape | frigate/detectors/detector_config.py:180-188 | The fields become those ApplyShape computes. |
| DetectorConfig.ModelConfig.LoadLabels | frigate/detectors/detector_config.py:190-210 | The fields become those ApplyLabels computes. |

## Left out

General:
- HTTP plumbing (routers, dependencies, response objects) is left out. An endpoint's outcome is its status and body as a datatype. The caller's allowed cameras are an input, because the access dependencies in `frigate/api/auth.py` are not part of this model.
- Provider SDKs and transports (openai, google.genai, ollama, requests, httpx) are function-valued parameters. Their replies are datatypes, and an exception they raise is an `Err`.
- `json.loads`/`json.dumps` are a codec parameter. The lemmas that need a fact about them name it for the values involved (that `loads` reads back what `dumps` wrote for those arguments, or that `loads("{}")` is `{}`); the codec itself is not proved.
- Images, frame capture, resizing, JPEG and base64 encoding, `datetime`, `strftime` and DST transitions are parameters or precomputed inputs.
- The database (peewee queries, the temporary table), directory listings, `os.walk`, `os.path.isdir`/`isfile`, file reads and writes, environment variables, secrets and `importlib` are inputs: sequences of rows, names and flags.
- Threads, locks, queues with timeouts, and the async generator protocol are left out. The model is sequential: a job operation is one atomic step, a queue is a finite sequence of messages, and a generator is a fold over a finite chunk sequence.
- Logging is left out; no modelled decision depends on it.
- Floating point is left out. Python floats are reals; timestamps and the sweep scale are integers. The float rounding in `get_relative_coordinates`, `usage_percent`, the logged percentages and the area multiplication in `convert_area_to_pixels` are not modelled.
- Strings are sequences of characters. Letter tests, `title()`, `lower()` and `isalnum()` cover ASCII letters and digits only; other Unicode letters are not modelled.
- `int()` on a string accepts an optional sign and decimal digits, and surrounding whitespace is stripped. Digit underscores, which Python also accepts, are not accepted by the model.
- Python `set`s turned into lists (`list(set(...))`) and dict iteration whose order depends on hashing are modelled as sets, or as a sequence whose order is left unspecified.

Per module:
- Chat: the live frame (capture, resize, encode, base64) is a parameter that yields the data URL or none. The request model declares only `messages` and `max_tool_iterations`, so the handler as written raises AttributeError at `body.include_live_image` (frigate/api/chat.py:424) and a configured server answers 500; ChatCompletion follows the evidently intended optional `include_live_image` field (see "## Findings").
- ChatTools: the events query behind `search_objects` is a parameter. The model checks only the mapping of the tool's arguments to the query's filters.
- AzureOpenAI: `urllib.parse` is modelled on the URL forms the adapter reads: a scheme of letters, a netloc, a path and a query. Percent-decoding of the query is not modelled.
- LlamaCpp.ApplyChunk: a truthy `finish_reason` that is not a string (a number or a list) is not taken as the finish reason; the model keeps the previous one. A tool-call `index` that is a string, null or float raises in the model; the source keys a slot by that value (a float equal to an int shares its slot), and only `sorted` in the final conversion raises, when keys of different kinds meet.
- OpenAI, LlamaCpp, Ollama, Gemini: the image `_send` of these adapters (the generate-description path) is not modelled; only Azure OpenAI's `_send` is. Gemini's `get_context_size` is not modelled.
- GenAIManager: a provider constructor's success is an input predicate over the config entry. Its side effects (network checks, model downloads) are left out.
- Jobs.Job.ToDict: its own contract states the keys in order and the status, results and error message. The values of the id, type, times and media-sync fields are stated by `Jobs.ToDictIdentity` and `Jobs.ToDictMediaSync`, so that each proof stays small.
- Jobs: the job id (a uuid) is a parameter. The broadcast of the job state over the inter-process channel is recorded as the sequence of job dicts sent. A broadcast that fails changes nothing, so it is not a separate outcome.
- Media: the `limited` mode of `sync_recordings` (the 36-hour window) is not modelled, because `sync_all_media` never uses it. The safety threshold `len(orphans) / checked > 0.5` is modelled as `2 * orphans > checked`, which agrees on every pair of integers. The database delete's row count is the number of missing rows. `remove_empty_directories` is not modelled, because no sync function calls it.
- MigrationSteps: a section a step reads as a dict (`record`, `retain`, `detect`, `onvif`, `autotracking` and the like) that is null or not a dict is read as `{}`. The source raises AttributeError there, for example on `record:` with no value, and likewise on a `movement_weights` that is not a string; the model gives no error in those cases.
- ConfigMigration: the YAML round trip and the file writes and renames are recorded as outputs. `StreamInfoRetriever`'s probe is a parameter, and its cache is modelled.
- ConfigUtil: `convert_area_to_pixels` multiplies exactly, on reals, before `int()` takes the whole part. The rounding of the float product is not modelled.
- Camera: the ffmpeg helper functions (`get_ffmpeg_arg_list`, the input, output and hwaccel presets) are parameters. `os.path.join` is modelled as `dir + "/" + name` for the cache segment path. A zone that is not a dict, and a missing `ffmpeg` section, are excluded by a precondition; the source raises there. The audio-role test reads a string or dict `roles` value; other JSON kinds count as not naming audio.
- Go2rtcConfig: the YAML and JSON parsing, environment reading, `print`, and the hardware-acceleration presets are parameters. The sections the script reads with `.get(...)` and then assigns into (`api`, `log`, `webrtc`, `rtsp`, `ffmpeg`, `streams`) are required to be dicts, and the credentials strings, because the source raises otherwise.
- Go2rtcConfig.ConfigShape: the ffmpeg `path` is required to be a string and the birdseye `width` and `height` integers. The source formats any other value with `str()` (a null path gives `None/bin/ffmpeg`); that rendering is not modelled.
- NginxSettings: reading the config file is an input, and a missing file is the empty config. A present `tls`, `networking`, `ipv6` or `listen` section is required to be a dict, because the source's `setdefault` raises otherwise.
- DetectorConfig: downloading the model and its info, `os.makedirs`, and the md5 model hash are left out; the info is an input. `MODEL_CACHE_DIR`, `DEFAULT_ATTRIBUTE_LABEL_MAP`, `load_labels` and `generate_color_palette` are parameters. The model info is a typed record, so a missing key is not modelled. The iteration order of the attribute and colour lists is unspecified.
- ObjectConfig: the `"_all_objects" in self` test is modelled as whether the private label set has been set (an Option). The base model that defines that membership is not part of this model.
- MqttConfig: the wording of the stats-interval error is the model's own. FREQUENCY_STATS_POINTS is a parameter.
- RecordConfig: MAX_PRE_CAPTURE is a parameter.
- ConfigTranslations: the recursion of `extract_translations_from_schema` and of the detector step takes a depth bound (`fuel`). A schema whose references form a cycle makes the source recurse until Python raises RecursionError; with the bound exhausted, the model answers None.
- RecordApi.NoRecordings: `scale > 0` is required. The query parameter has no lower bound, and the source's loop never ends otherwise (see Findings). `unquote` of the camera list is not modelled. The bounds are whole seconds; the query's float timestamps are not modelled. The clock the defaults would read is a parameter (`now`); as written, the defaults raise instead of reading it (see Findings).
- RecordApi.DeleteRecordings: a file unlink with `missing_ok=True` succeeds or raises as the `unlinks` parameter says. The batches of 100000 ids are modelled, but the database errors of a batch are not.

## Findings

| source | as written | input that shows it | evidently intended | confidence | as-written member | corrected member |
|---|---|---|---|---|---|---|
| frigate/util/config.py:55-106 | Every step is handed the originally loaded `config`, not the previous step's `new_config`. Each step copies only the top level, so a top-level key that an earlier step added is lost. Only edits inside nested sections, which the copies share, survive. | A config without `version`, with `record.events.required_zones: [a]` and no `review` section. `migrate_014` deletes the zones from `record.events` in place and adds them under `review.alerts` only in its own copy. The later steps start again from the original dict, so the file written last has no `review` and the zones are gone. | Each step is handed the previous step's result, so the zones end up under `review.alerts.required_zones`. | high, not executed | ConfigMigration.ZonesLostAsWritten | ConfigMigration.ZonesKeptThreaded |
| frigate/api/record.py:290-310 | For `cameras == "all"` the handler rebinds `cameras` to the allowed camera list. It then tests `cameras != "all"`, which always holds for a list, and calls `cameras.split(",")` on the list. | `GET /recordings/unavailable?after=1700000000&before=1700003600`, with the default `cameras=all`, raises AttributeError. | "all" sweeps the recordings of every allowed camera. | medium (the type of the allowed-camera list comes from a dependency that is not part of this model), not executed | RecordApi.NoRecordingsAsWritten | RecordApi.NoRecordingsResponse |
| frigate/api/record.py:300-304 | The module imports the class at line 4 (`from datetime import datetime, timedelta`), yet the defaults call `datetime.datetime.now()` and `datetime.timedelta`, which the class does not have. | `GET /recordings/unavailable?cameras=front`, where `front` is an allowed camera, with no `after` or `before`, raises AttributeError. | `before` defaults to now and `after` to an hour ago. | high, not executed | RecordApi.MissingBoundsFailAsWritten | RecordApi.NoRecordingsResponse |
| frigate/api/record.py:305-353 | `scale` is any integer, and the sweep advances by `min(current + scale, before)`. | `scale=0` (or any negative value) with `after < before`: `current` never grows, so the request never ends. | A scale below 1 is refused. | high, not executed | RecordApi.SweepStallsWithoutScale | RecordApi.NoRecordingsResponse |
| frigate/api/chat.py:424-430 | The handler reads `body.include_live_image`, but `ChatCompletionRequest` (frigate/api/defs/request/chat_body.py:23-34) declares only `messages` and `max_tool_iterations`. The read comes before the `try` at line 482. | Any `POST /chat/completion` with a GenAI client configured, e.g. one user message "hello": the attribute read raises AttributeError, and the server answers 500 before the provider is called. | `include_live_image` is an optional camera name on the request; without it the prompt has no live-image note and no image is attached. | high, not executed | ChatEndpoint.LiveImageFieldMissingAsWritten | ChatEndpoint.ChatCompletion |
| frigate/util/media.py:89-95 | The rows are read with `for page in range(num_pages)` and `paginate(page, 1000)`. Peewee numbers pages from 1 and reads page 0 as page 1. | 1001 recording rows: pages 0 and 1 both read rows 1 to 1000, and row 1001 is never checked. Its missing file goes unnoticed, and a missing file among the first thousand is counted twice as an orphan. | Pages 1 to num_pages, reading every row once. | medium (peewee's `paginate` is not part of this model), not executed | Media.PagingRereadsFirstPage | Media.ScanCoversRows |
