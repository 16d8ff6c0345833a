# Shadow stealth assistant — verified model of the main-process core

This project models the parts of the Electron assistant that decide what
happens when the user works with it:

- the screenshot store, with its two bounded queues ("queue" view and
  extra/debug screenshots) and its files on disk;
- the configuration store (`config.json`), with its provider repair, model
  sanitising, provider inference from the key, key format checks and
  opacity clamp;
- the main process `state` and the functions that hide, show, move and
  resize the window, switch views and clear the queues;
- the processing manager:
  - which vendor client is ready;
  - the solve run from the "queue" view and the debug run from the other
    views, including the messages each sends and the state each leaves;
  - cancelling a run;
  - the pure post-processing of vendor replies (fence stripping, code
    extraction, thoughts, complexity normalisation, debug formatting);
- the IPC handlers that the renderer calls for listing and deleting
  screenshots, validating a key, updating the configuration, and
  triggering processing or a reset;
- the renderer's complexity formatting and the settings dialog's key mask,
  provider-change rule, load defaults and save-button rule.

Vendor calls are replaced by the reply each one gives (`Processing.Reply`).
`JSON.parse` is replaced by a function parameter, and so are the
regular-expression captures the model does not spell out
(`ResponseParsing.Extractors`). The disk is a map from path to bytes.
Messages sent to the renderer are recorded in order in `Session.Session.sent`,
and vendor requests in `Processing.ProcessingManager.calls`.

Modules, in dependency order:

- `Common`: providers, views and the option and result types.
- `Text`: the JavaScript string operations that are used.
- `Screenshots`: the screenshot store.
- `Config`: the configuration store.
- `ResponseParsing`: post-processing of replies.
- `Session`: the main process `state`.
- `Processing`: the processing manager.
- `Ipc`: the IPC handlers.
- `ComplexitySection`: the renderer's complexity formatting.
- `SettingsDialog`: the settings dialog.

## Model

| member | source | states |
|---|---|---|
| Common.ProviderNameRoundTrip | src/main/lib/config-manager.ts:101-108 | the stored name of a provider parses back to that provider |
| Common.ParseProvider | src/main/lib/config-manager.ts:101-108 | a name parses exactly when it is "openai" or "gemini", and the parsed provider's name is that text |
| Screenshots.CapturePath | src/main/lib/screenshot-manager.ts:263-292 | a capture goes to a `.png` file named after the uuid, directly inside the view's directory |
| Screenshots.Push | src/main/lib/screenshot-manager.ts:270-311 | a queue never holds more than four paths, and the newest path ends it |
| Screenshots.Evicted | src/main/lib/screenshot-manager.ts:270-311 | a path is evicted exactly when the queue is full, and it is the oldest one |
| Screenshots.PushAllKeepsNewest | src/main/lib/screenshot-manager.ts:270-311 | after any series of captures, a queue holds the four most recent paths in capture order |
| Screenshots.NewestDropsFront | src/main/lib/screenshot-manager.ts:270-311 | past capacity, dropping the oldest capture does not change which captures are the newest |
| Screenshots.Without | src/main/lib/screenshot-manager.ts:346-353 | removing a path from a queue keeps every other entry and drops every copy of that path |
| Screenshots.Unlinked | src/main/lib/screenshot-manager.ts:110-132 | the files removed by unlinking a queue are its paths whose unlink does not fail |
| Screenshots.StaleFiles | src/main/lib/screenshot-manager.ts:54-92 | the start-up cleanup removes only files in the listing, never one whose unlink fails, only `.png` files in the two screenshot directories, and every such file whose unlink succeeds |
| Screenshots.ScreenshotManager.constructor | src/main/lib/screenshot-manager.ts:22-92 | the store starts with empty queues in the given view; the directory clean removes every `.png` in the two directories except those whose unlink fails; no other file is touched |
| Screenshots.ScreenshotManager.GetView | src/main/lib/screenshot-manager.ts:94-96 | returns the current view |
| Screenshots.ScreenshotManager.SetView | src/main/lib/screenshot-manager.ts:98-100 | the view becomes the given one |
| Screenshots.ScreenshotManager.UnlinkAll | src/main/lib/screenshot-manager.ts:111-118 | exactly the paths whose unlink succeeds leave the disk |
| Screenshots.ScreenshotManager.ClearQueues | src/main/lib/screenshot-manager.ts:110-132 | both queues are empty, and every queued file whose unlink succeeds is gone from disk |
| Screenshots.ScreenshotManager.ClearExtraScreenshotQueue | src/main/lib/screenshot-manager.ts:365-380 | the extra queue is empty, the primary queue is unchanged, and only the extra files leave the disk |
| Screenshots.ScreenshotManager.TakeScreenshot | src/main/lib/screenshot-manager.ts:245-321 | succeeds exactly when the capture gives non-empty bytes and the write succeeds; on success the new file is written and pushed on the view's queue, and an evicted file is unlinked; on failure nothing changes |
| Screenshots.ScreenshotManager.GetImagePreview | src/main/lib/screenshot-manager.ts:323-337 | the preview is empty exactly when the file is missing or unreadable; otherwise it is the PNG data-URL prefix followed by the encoded file |
| Screenshots.ScreenshotManager.DeleteScreenshot | src/main/lib/screenshot-manager.ts:339-363 | fails exactly when the file exists and its unlink fails, and then nothing changes; on success the file is gone and the path is filtered out of the view's queue (and out of no queue in the debug view) |
| Config.DefaultModel | src/main/lib/config-manager.ts:65-93 | the fallback model is one the provider accepts |
| Config.ToStored | src/main/lib/config-manager.ts:53-63 | the saved object holds every field of the config, and its provider name parses back to the provider |
| Config.SanitizeModelSelection | src/main/lib/config-manager.ts:65-93 | an allowed model is kept; any other model becomes the provider's default; the result is always allowed |
| Config.SanitizeIsIdempotent | src/main/lib/config-manager.ts:65-93 | sanitising twice gives the same result as sanitising once |
| Config.RepairProvider | src/main/lib/config-manager.ts:101-108 | only a stored "gemini" stays Gemini; anything else, including a missing provider, becomes OpenAI |
| Config.LoadParsedRepairs | src/main/lib/config-manager.ts:95-142 | loading a parsed file repairs its provider, turns every non-empty stored model into one the repaired provider accepts, and keeps a stored key |
| Config.Load | src/main/lib/config-manager.ts:95-142 | a missing or unparsable file loads the defaults; otherwise the provider is repaired; a stored key, language and opacity are taken as they are and missing ones become "", "cpp" and 1.0; a non-empty stored model is sanitised for the repaired provider, an empty one stays empty and a missing one is the default model |
| Config.SaveLoadRoundTrip | src/main/lib/config-manager.ts:95-142 | saving a config whose models suit its provider and loading it back gives the same config |
| Config.ProviderNameParses | src/main/lib/config-manager.ts:101-108 | a saved provider survives the provider repair |
| Config.LoadCoercesInvalidModel | src/main/lib/config-manager.ts:109-114 | an unknown OpenAI extraction model loads as "gpt-4o" |
| Config.LoadKeepsDefaultModelForOpenAI | src/main/lib/config-manager.ts:109-133 | an OpenAI file with no extraction model loads the Gemini default model, which OpenAI does not accept |
| Config.ResolveProvider | src/main/lib/config-manager.ts:146-161 | an explicit provider wins; otherwise a non-empty key picks OpenAI exactly when its trimmed form starts with "sk-", and Gemini otherwise; with neither, the current provider stays |
| Config.ResolveUpdates | src/main/lib/config-manager.ts:163-197 | a provider switch sets all three models to the new provider's default; without a switch the given models are sanitised; key, language and opacity pass through |
| Config.Overlay | src/main/lib/config-manager.ts:199-202 | each field present in the update replaces the current one and every absent field keeps its value; an empty update changes nothing |
| Config.Updated | src/main/lib/config-manager.ts:144-204 | the provider is the resolved one; key, language and opacity come from the update or stay; a provider switch resets all three models to the new provider's default; every non-empty model given is accepted by the resulting provider |
| Config.UpdatePreservesConsistency | src/main/lib/config-manager.ts:144-204 | an update of a config whose models suit its provider gives one whose models suit the resolved provider |
| Config.OpenAIKeySwitchesProvider | src/main/lib/config-manager.ts:146-178 | an "sk-" key given without a provider switches a Gemini config to OpenAI with "gpt-4o" for all three models |
| Config.KeyProvider | src/main/lib/config-manager.ts:229-239 | the explicit provider, or OpenAI exactly when the trimmed key starts with "sk-" |
| Config.MatchesOpenAIKey | src/main/lib/config-manager.ts:241-242 | the key is "sk-" followed by exactly 48 word characters |
| Config.MatchesGeminiKey | src/main/lib/config-manager.ts:243-244 | the key starts with "AIzaSyB" and has no line terminator after that |
| Config.IsValidApiKeyFormat | src/main/lib/config-manager.ts:229-247 | the format check is the shape check of the resolved provider |
| Config.KeyFormatsDisjoint | src/main/lib/config-manager.ts:229-247 | no key has both shapes |
| Config.InferredOpenAIKeyAccepted | src/main/lib/config-manager.ts:229-247 | a well-formed OpenAI key passes without an explicit provider |
| Config.ClampOpacity | src/main/lib/config-manager.ts:307-310 | the opacity is kept within 0.1 to 1.0, and values in range are unchanged |
| Config.OpacityUpdate | src/main/lib/config-manager.ts:307-310 | the update `setOpacity` makes carries only the clamped opacity |
| Config.TestApiKey | src/main/lib/config-manager.ts:249-300 | a Gemini key is accepted; an OpenAI key is valid exactly when the vendor lists models; a rejection says "Invalid API key" |
| Config.ConfigManager.constructor | src/main/lib/config-manager.ts:39-51 | a missing file is created with the defaults; an existing one is left alone |
| Config.ConfigManager.LoadConfig | src/main/lib/config-manager.ts:95-142 | returns the loaded config of the file; a missing file is written with the defaults |
| Config.ConfigManager.UpdateConfig | src/main/lib/config-manager.ts:144-222 | returns and saves the loaded config overlaid with the resolved updates, and notifies listeners |
| Config.ConfigManager.HasApiKey | src/main/lib/config-manager.ts:224-227 | true exactly when the loaded key is non-empty after trimming |
| Config.ConfigManager.SetOpacity | src/main/lib/config-manager.ts:307-310 | the file becomes the save of the loaded config updated with only the clamped opacity; the stored opacity is the clamped value, and a later load returns it |
| Config.ConfigManager.GetOpacity | src/main/lib/config-manager.ts:302-305 | returns the loaded opacity |
| Config.ConfigManager.GetLanguage | src/main/lib/config-manager.ts:312-315 | returns the loaded language |
| ResponseParsing.StripFencesRemovesAll | src/main/lib/processing-manager.ts:434-436 | no "```" is left after removing every fence marker |
| ResponseParsing.StripFences | src/main/lib/processing-manager.ts:434-436 | removing fence markers never lengthens the text |
| ResponseParsing.StripFencesIdentity | src/main/lib/processing-manager.ts:434-436 | a text without fences is unchanged |
| ResponseParsing.StripFencesIdempotent | src/main/lib/processing-manager.ts:434-436 | stripping twice gives the same result as stripping once |
| ResponseParsing.JsonText | src/main/lib/processing-manager.ts:434-436 | the text handed to `JSON.parse` is trimmed and holds no fence |
| ResponseParsing.FencedBody | src/main/lib/processing-manager.ts:671-674 | there is no block exactly when the reply has no two non-overlapping fences; a found block holds no fence |
| ResponseParsing.FencedBodyIsFirstBlock | src/main/lib/processing-manager.ts:671-674 | for every reply, the capture is the text between the white space after the first fence's tag and the next fence |
| ResponseParsing.SolutionCode | src/main/lib/processing-manager.ts:671-674 | without a fenced block the code is the whole reply; with one, the code is trimmed and fence-free |
| ResponseParsing.SolutionCodeIsFirstBlock | src/main/lib/processing-manager.ts:671-674 | for every fenced reply, the code is the trimmed text between the white space after the first fence's word-character tag and the next fence |
| ResponseParsing.UnfencedResponseIsCode | src/main/lib/processing-manager.ts:671-674 | a reply with no fence is its own code |
| ResponseParsing.FencedCodeIsExtracted | src/main/lib/processing-manager.ts:671-674 | for a reply of text, a fence, a language tag, a line feed, a body and a closing fence, the code is the trimmed body |
| ResponseParsing.FindBigO | src/main/lib/processing-manager.ts:712 | finds the leftmost position where an `O(...)` token starts, or reports that there is none |
| ResponseParsing.NormalizeComplexity | src/main/lib/processing-manager.ts:709-747 | a normalised complexity always holds an `O(...)` token |
| ResponseParsing.NormalizeComplexityCases | src/main/lib/processing-manager.ts:709-747 | a text without a token gets "O(n) - " in front; a text with a token that contains "-" or "because" anywhere is kept trimmed; otherwise the token is moved to the front |
| ResponseParsing.NormalizeComplexityStable | src/main/lib/processing-manager.ts:709-747 | normalising an already normalised complexity only trims it |
| ResponseParsing.ProseGetsLinearDefault | src/main/lib/processing-manager.ts:712-716 | trimmed prose without a parenthesis, such as "linear", becomes "O(n) - " followed by the prose |
| ResponseParsing.Complexity | src/main/lib/processing-manager.ts:699-747 | a missing or empty capture gives the default; the result always holds a token |
| ResponseParsing.DefaultsHaveTokens | src/main/lib/processing-manager.ts:699-707 | both default complexities hold a token |
| ResponseParsing.StripBulletMarker | src/main/lib/processing-manager.ts:686-690 | the result is a suffix of the line; a line with no marker is unchanged |
| ResponseParsing.BulletThoughts | src/main/lib/processing-manager.ts:681-691 | every thought is non-empty and trimmed |
| ResponseParsing.LineThoughts | src/main/lib/processing-manager.ts:692-697 | every thought is non-empty, trimmed and a single line |
| ResponseParsing.SolutionThoughts | src/main/lib/processing-manager.ts:676-697 | the extracted thoughts, or the single default thought when none are extracted |
| ResponseParsing.BuildSolution | src/main/lib/processing-manager.ts:669-756 | the solution's code is the extracted code; there is at least one thought and none is empty; both complexities hold a token; a missing capture gives the default complexity |
| ResponseParsing.DebugCode | src/main/lib/processing-manager.ts:948-955 | the code is the trimmed fenced block when it is non-empty, and the debug placeholder otherwise |
| ResponseParsing.LowerAll | src/main/lib/processing-manager.ts:957-977 | lower-cases ASCII letters and keeps every other character |
| ResponseParsing.AlternativeAt | src/main/lib/processing-manager.ts:957-977 | names a heading alternative that matches at the position, ignoring case, or reports that none does |
| ResponseParsing.ReplaceFirstCI | src/main/lib/processing-manager.ts:957-977 | a text in which no alternative matches, ignoring case, from the start position on is unchanged |
| ResponseParsing.ReplaceFirstCIReplacesLeftmost | src/main/lib/processing-manager.ts:957-977 | only the leftmost match is replaced: the text before it, the replacement, and the text after the matched alternative |
| ResponseParsing.FormatDebugContent | src/main/lib/processing-manager.ts:957-977 | a reply that already has "# " headings is kept as it is, and so is one that mentions none of the topics |
| ResponseParsing.FirstIssueBecomesHeading | src/main/lib/processing-manager.ts:957-977 | the first mention of an issue topic becomes "## Issues Identified" and the rest of the text is kept |
| ResponseParsing.LevelTwoHeadingHoldsLevelOne | src/main/lib/processing-manager.ts:959 | a text that contains "## " also contains "# ", so the second test adds nothing |
| ResponseParsing.StripDebugBulletMarker | src/main/lib/processing-manager.ts:979-988 | as written, a bullet line that starts with a line feed keeps its marker |
| ResponseParsing.DebugMarkerKeptAfterLineFeed | src/main/lib/processing-manager.ts:979-988 | as written, the bullet "\n- x" becomes the thought "- x" |
| ResponseParsing.FrontMarkerTrimmed | src/main/lib/processing-manager.ts:979-988 | trimming alone does not remove a leading "- " |
| ResponseParsing.StripDebugBulletLine | src/main/lib/processing-manager.ts:979-988 | the corrected marker strip returns a suffix of the line |
| ResponseParsing.DebugBulletLineDropsMarker | src/main/lib/processing-manager.ts:979-988 | corrected: the bullet "\n- x" becomes the thought "x" |
| ResponseParsing.DebugThoughts | src/main/lib/processing-manager.ts:979-988 | as the source computes them: between one and five thoughts; the default thought when there are no bullets; otherwise one thought per bullet up to five, each the bullet with the marker strip as written applied and then trimmed |
| ResponseParsing.DebugThoughtsIntended | src/main/lib/processing-manager.ts:979-988 | corrected: the same thoughts, with the line feed in front of a bullet dropped before its marker |
| ResponseParsing.DebugThoughtsAgreeWithoutLineFeeds | src/main/lib/processing-manager.ts:979-988 | when no bullet starts with a line feed, the thoughts as written and as intended are the same |
| ResponseParsing.SingleBulletThought | src/main/lib/processing-manager.ts:979-988 | a single bullet gives a single thought, in both versions |
| ResponseParsing.DebugThoughtsKeepLaterMarker | src/main/lib/processing-manager.ts:979-988 | as written, the bullet "\n- x" gives the thoughts ["- x"] |
| ResponseParsing.DebugThoughtsIntendedDropLaterMarker | src/main/lib/processing-manager.ts:979-988 | corrected, the bullet "\n- x" gives the thoughts ["x"] |
| ResponseParsing.BuildDebugResult | src/main/lib/processing-manager.ts:948-996 | the code is the debug code of the reply; the analysis is the formatted reply; the thoughts are the debug thoughts of that analysis; both complexities are "N/A - Debug mode" |
| Session.Hidden | src/main/index.ts:268-279 | a hidden window keeps its bounds, lets mouse events through and is fully transparent |
| Session.RestoredBounds | src/main/index.ts:281-307 | the saved position and size when both are saved, else the current bounds |
| Session.Shown | src/main/index.ts:281-307 | a shown window has the restored bounds, takes mouse events exactly when clickable, and is opaque |
| Session.HideThenShowRestoresBounds | src/main/index.ts:268-307 | hiding and then showing gives the window back its bounds |
| Session.LeftOf | src/main/index.ts:372-375 | a left move goes one step left, but never more than half the window off the left edge |
| Session.RightOf | src/main/index.ts:376-382 | a right move goes one step right, but never more than half the window past the screen's right edge |
| Session.LeftMoveSettles | src/main/index.ts:372-375 | once at the left bound, further left moves stay there |
| Session.MovedTo | src/main/index.ts:249-266 | a moved window has the new position and its old size, click-through and opacity |
| Session.MoveThenHideShowKeepsMove | src/main/index.ts:249-307 | a window that is moved, hidden and shown again comes back at the position it was moved to |
| Session.Session.constructor | src/main/index.ts:11-43 | the initial state: no window, not visible, clickable, nothing saved, "queue" view, no problem, nothing sent |
| Session.Session.Send | src/main/lib/processing-manager.ts:179-181 | a message sent to the renderer through `webContents.send` is appended to the record |
| Session.Session.CreateWindow | src/main/index.ts:45-171 | an existing window and all the saved geometry are left as they are; otherwise the work-area size, step 60, the bounds as saved position and size and as current position are recorded, the window is clickable, and it is created with those bounds taking mouse events, visible at the loaded opacity when that is above 0.1, else hidden at opacity 0; the configuration file is unchanged |
| Session.Session.HideMainWindow | src/main/index.ts:268-279 | the geometry is saved and the window hidden; without a window nothing changes |
| Session.Session.ShowMainWindow | src/main/index.ts:281-307 | the window is shown with the restored bounds, and the session is marked visible |
| Session.Session.ToggleMainWindow | src/main/index.ts:309-316 | a visible window is hidden with its bounds saved as position and size; a hidden window is shown at the restored bounds with its click-through set from clickability; without a window only the visible flag flips |
| Session.Session.ToggleMouseClick | src/main/index.ts:318-328 | clickability flips, and the window lets mouse events through exactly when it is no longer clickable |
| Session.Session.SetView | src/main/index.ts:192-195 | the session and the store both show the new view |
| Session.Session.SetProblemInfo | src/main/index.ts:336-338 | the problem becomes the given one |
| Session.Session.SetHasDebugged | src/main/index.ts:344-346 | the debug flag becomes the given value |
| Session.Session.ClearQueues | src/main/index.ts:201-205 | both queues are empty, their files are unlinked, the problem is forgotten, and the view is "queue" |
| Session.Session.HandleWindowMove | src/main/index.ts:226-233 | the new position is saved and becomes current |
| Session.Session.HandleWindowResize | src/main/index.ts:235-240 | the new size is saved |
| Session.Session.HandleWindowClosed | src/main/index.ts:242-247 | no window, nothing saved, not visible |
| Session.Session.MoveWindowLeft | src/main/index.ts:372-375 | the left-move closure applied through `moveWindowHorizontal` (lines 249-256): with a window, x becomes the bounded left move and the window moves there keeping its size; without one nothing changes |
| Session.Session.MoveWindowRight | src/main/index.ts:376-382 | the right-move closure applied through `moveWindowHorizontal` (lines 249-256): with a window, x becomes the bounded right move and the window moves there keeping its size; without one nothing changes |
| Session.Session.MoveWindowUp | src/main/index.ts:258-266 | with a window, y decreases by one step and the window moves there keeping its size; without one nothing changes |
| Session.Session.MoveWindowDown | src/main/index.ts:258-266 | with a window, y increases by one step and the window moves there keeping its size; without one nothing changes |
| Session.Session.TakeScreenshot | src/main/index.ts:177-186 | fails with "Main window not found" without a window and changes nothing; otherwise succeeds exactly when the capture gives non-empty bytes and the write succeeds, the window is hidden for the capture and shown again with its bounds either way, and on success the new file is written to the view's directory and pushed on the view's queue and an evicted file is unlinked, while on failure the queues and disk are unchanged |
| Processing.KeepIn | src/main/lib/processing-manager.ts:194-226 | keeps exactly the paths in the set, in order |
| Processing.KeepInAppend | src/main/lib/processing-manager.ts:296-324 | filtering distributes over concatenation |
| Processing.KeepInTwice | src/main/lib/processing-manager.ts:194-226 | filtering by existence and then by readability is filtering once by both |
| Processing.DebugImagesInOrder | src/main/lib/processing-manager.ts:296-324 | the debug request carries the readable primary screenshots, then the readable extra screenshots, each in queue order |
| Processing.ExtractProblem | src/main/lib/processing-manager.ts:380-510 | a failed OpenAI call gives "Failed to process screenshot"; a missing OpenAI text gives "Failed to parse OpenAI response"; a failed, missing or empty Gemini reply gives "Failed to parse Gemini response"; a parse error gives the parse error of the provider that was called; otherwise the parsed problem, or none when it is falsy |
| Processing.GenerateSolution | src/main/lib/processing-manager.ts:562-772 | succeeds exactly when a problem is known and the reply has text, and the solution is built from that text |
| Processing.SolveOutcome | src/main/lib/processing-manager.ts:363-560 | a failure carries one of the three extraction and processing errors |
| Processing.SolveOutcomeCharacterized | src/main/lib/processing-manager.ts:363-560 | a solve succeeds exactly when a problem is extracted and the solution reply has text; its solution has the extracted code, at least one thought, and complexities with tokens |
| Processing.DebugOutcome | src/main/lib/processing-manager.ts:800-1009 | succeeds exactly when a problem is known and the reply has text; any failure is "Failed to process extra screenshots" |
| Processing.DebuggedByOutcome | src/main/lib/processing-manager.ts:335-358 | the state after a debug run, stated in terms of the helper's outcome |
| Processing.HelperMessages | src/main/lib/processing-manager.ts:512-550 | the helper sends at most two messages, and the second one is the solution on success |
| Processing.HelperMessagesOnError | src/main/lib/processing-manager.ts:380-510 | a failed extraction sends no helper message and is the run's outcome, with its own error |
| Processing.HelperMessagesOnProblem | src/main/lib/processing-manager.ts:520-550 | an extracted problem is announced first, followed by the solution exactly when the solve succeeds |
| Processing.SolvedByOutcome | src/main/lib/processing-manager.ts:232-264 | the state after a solve run, stated in terms of the helper's outcome |
| Processing.SolvedIgnoresBusy | src/main/lib/processing-manager.ts:232-264 | the state after a solve run does not depend on whether a controller was set before |
| Processing.SolveMessagesShape | src/main/lib/processing-manager.ts:232-251 | a successful solve sends the solution twice; a failed one ends with "solution-error" carrying the error, and sends no solution |
| Processing.ProcessingManager.constructor | src/main/lib/processing-manager.ts:41-50 | no run in flight, no request made, and clients built from the saved configuration |
| Processing.ProcessingManager.InitializeAiClient | src/main/lib/processing-manager.ts:52-90 | only the configured provider gets a client, and only with a non-empty key |
| Processing.ProcessingManager.EnsureClient | src/main/lib/processing-manager.ts:154-174 | an existing client is kept; otherwise the clients are rebuilt, and the run may go on exactly when the key is non-empty |
| Processing.ProcessingManager.ProcessScreenshots | src/main/lib/processing-manager.ts:150-361 | the whole run state follows `ProcessEffect`: without a window nothing changes; without a client only "api-key-invalid" is sent; the "queue" view has the solve effect and any other view the debug effect, each on the messages, requests, view, extra queue, disk, problem and debug flag; the configuration file and primary queue are unchanged |
| Processing.ProcessingManager.RunForView | src/main/lib/processing-manager.ts:176-178 | the "queue" view has the solve effect on the whole run state and leaves the debug controller and flag alone; any other view has the debug effect and leaves the solve controller alone |
| Processing.ProcessingManager.SolveQueue | src/main/lib/processing-manager.ts:177-264 | the run state follows `SolveEffect`: "initial-start", then with no screenshot on disk "no screenshots" and no request; with none readable a "No valid screenshots to process" error and the "queue" view; otherwise extraction of the readable screenshots, the helper's messages and the outcome, success moving to "solutions" with the extra queue cleared and its files unlinked, failure returning to "queue" with queue and disk unchanged; the problem is recorded when extracted |
| Processing.ProcessingManager.SolveImages | src/main/lib/processing-manager.ts:232-264 | the run state becomes `Solved`: the helper's messages followed by the solution or the error, the requests made, the view, the extra queue and disk by outcome, the problem when extracted, and no controller left |
| Processing.ProcessingManager.SendSolveOutcome | src/main/lib/processing-manager.ts:232-264 | the solution is sent and "solutions" shown on success; the error is sent and "queue" shown on failure |
| Processing.ProcessingManager.SolveHelper | src/main/lib/processing-manager.ts:363-560 | the outcome is the solve outcome; extraction is requested with the given screenshots, then the solution when a problem is found; the helper's messages are sent; an extracted problem is recorded and a failed extraction leaves the problem; success empties the extra queue and unlinks its files, failure leaves queue and disk |
| Processing.ProcessingManager.AnnounceSolution | src/main/lib/processing-manager.ts:520-550 | the outcome is the solve outcome; on success the extra queue is emptied, its files unlinked and the solution sent; on failure nothing is sent and queue and disk are unchanged |
| Processing.ProcessingManager.DebugExtra | src/main/lib/processing-manager.ts:265-360 | the run state follows `DebugEffect`: with no extra screenshot on disk only "no screenshots"; otherwise "debug-start", then a "No valid screenshots to process" error or the debug run on the readable primary and extra screenshots in queue order; view, queues, disk and problem untouched |
| Processing.ProcessingManager.DebugImages | src/main/lib/processing-manager.ts:335-358 | the run state becomes `Debugged`: the debug request only when a problem is known; success sets the debug flag and sends "debug-success" with the result, failure sends "debug-error" with "Failed to process extra screenshots"; no controller is left |
| Processing.ProcessingManager.CancelOngoingRequest | src/main/lib/processing-manager.ts:774-798 | no run is in flight, the debug flag and the problem are cleared, and "no screenshots" is sent exactly when a run was in flight and there is a window |
| Ipc.ViewQueue | src/main/lib/ipc-handler.ts:54-83 | the primary queue in the "queue" view, the extra queue otherwise |
| Ipc.ValidateApiKey | src/main/lib/ipc-handler.ts:42-52 | a badly formatted key is refused with "Invalid API key format" before any test; otherwise the key test decides |
| Ipc.ValidateApiKeyGuards | src/main/lib/ipc-handler.ts:42-52 | an accepted key is well formed; a badly formatted key's answer does not depend on the vendor; an accepted OpenAI-shaped key passed the vendor test |
| Ipc.WithoutAppend | src/main/lib/ipc-handler.ts:108-133 | removing a path distributes over concatenation |
| Ipc.WithoutAbsent | src/main/lib/ipc-handler.ts:108-133 | removing a path the queue does not hold changes nothing |
| Ipc.DeleteLastDropsLast | src/main/lib/ipc-handler.ts:108-133 | deleting the last path of a queue that holds it once removes exactly the last entry |
| Ipc.IpcHandler.constructor | src/main/lib/ipc-handler.ts:5-29 | the handlers share the processing manager's session and configuration |
| Ipc.IpcHandler.GetScreenshots | src/main/lib/ipc-handler.ts:54-83 | one preview per path of the view's queue, in queue order |
| Ipc.IpcHandler.DeleteLastScreenshot | src/main/lib/ipc-handler.ts:108-133 | an empty view queue gives "No screenshots to delete" and changes nothing; otherwise the last path is deleted as by the store, and "screenshot-deleted" is sent when there is a window |
| Ipc.IpcHandler.NotifyMissingKey | src/main/lib/ipc-handler.ts:144-151 | "api-key-invalid" is sent when there is a window, and no other part of the run state changes |
| Ipc.IpcHandler.UpdateConfig | src/main/lib/ipc-handler.ts:34-36 | returns the updated configuration; the saved file loads back with its provider and key; the clients are rebuilt for that provider and key |
| Ipc.IpcHandler.TriggerProcessScreenshots | src/main/lib/ipc-handler.ts:142-159 | succeeds exactly when the loaded key is non-empty after trimming, and then the run has `ProcessEffect` on the whole run state; otherwise "No API key found", the run state is unchanged but for "api-key-invalid" sent when there is a window; the configuration file is unchanged (the handler needs a valid store, whose constructor has already written a missing file) |
| Ipc.IpcHandler.TriggerReset | src/main/lib/ipc-handler.ts:160-176 | any run is cancelled, both queues are emptied and their files unlinked except where unlinking fails, the view is "queue", the problem and debug flag are cleared, and "no screenshots" (when a run was in flight) and "reset-view" are sent when there is a window |
| ComplexitySection.FormatComplexity | src/renderer/src/components/solutions/complexity-section.tsx:10-21 | defined by the source's three cases: a missing or blank complexity is "Complexity not available", one with an `O(...)` token is shown as it is, anything else is wrapped in `O(` and `)`; its properties are the lemmas below |
| ComplexitySection.WrappedHasToken | src/renderer/src/components/solutions/complexity-section.tsx:10-21 | wrapping a text that does not start with ")" creates a token |
| ComplexitySection.FormattedHasToken | src/renderer/src/components/solutions/complexity-section.tsx:10-21 | a formatted complexity that is not blank holds a token |
| ComplexitySection.FormatComplexityIdempotent | src/renderer/src/components/solutions/complexity-section.tsx:10-21 | formatting twice gives the same result as formatting once |
| ComplexitySection.NotAvailableIsWrapped | src/renderer/src/components/solutions/complexity-section.tsx:10-21 | the "not available" text, formatted again, gets wrapped |
| SettingsDialog.MaskApiKey | src/renderer/src/components/settings-dialog.tsx:240-243 | the empty key shows nothing; any other key shows its first four characters, four dots and its last four characters |
| SettingsDialog.MaskLength | src/renderer/src/components/settings-dialog.tsx:240-243 | a mask is at most twelve characters long |
| SettingsDialog.MaskSeesOnlyEnds | src/renderer/src/components/settings-dialog.tsx:240-243 | two keys with the same first and last four characters get the same mask |
| SettingsDialog.OrElse | src/renderer/src/components/settings-dialog.tsx:207-238 | a non-empty value, or else the fallback |
| SettingsDialog.ProviderModels | src/renderer/src/components/settings-dialog.tsx:207-238 | the proposed models are never empty |
| SettingsDialog.SwitchAwayUsesDefaults | src/renderer/src/components/settings-dialog.tsx:207-238 | switching to a provider other than the saved one proposes that provider's default, which it accepts |
| SettingsDialog.SwitchBackRestoresSaved | src/renderer/src/components/settings-dialog.tsx:207-238 | switching back to the saved provider restores the saved models |
| SettingsDialog.Shown | src/renderer/src/components/settings-dialog.tsx:287-320 | the shown key is the fetched key or ""; the provider is the fetched one or Gemini; each model is the fetched one when non-empty, otherwise "gemini-2.5-flash"; no model shown is empty |
| SettingsDialog.Dialog.constructor | src/renderer/src/components/settings-dialog.tsx:184-191 | the initial empty key, Gemini, "gemini-2.5-flash" models, no saved configuration |
| SettingsDialog.Dialog.SaveDisabled | src/renderer/src/components/settings-dialog.tsx:705 | defined as the button's guard: disabled while loading or with an empty key; the promises that use it are those of `BeginLoad` and `CompleteLoad` |
| SettingsDialog.Dialog.HandleProviderChange | src/renderer/src/components/settings-dialog.tsx:207-238 | the provider is set, and the models follow the provider-change rule |
| SettingsDialog.Dialog.BeginLoad | src/renderer/src/components/settings-dialog.tsx:287-290 | loading disables saving |
| SettingsDialog.Dialog.CompleteLoad | src/renderer/src/components/settings-dialog.tsx:287-320 | a fetched configuration is shown and remembered; a failed fetch changes nothing else; afterwards saving is disabled exactly when the key is empty |

## Left out

- Electron itself is not part of this model. A window is its bounds,
  click-through flag and opacity. A move sets the window's position and
  keeps its size (`Session.MovedTo`). `setPosition`'s rounding to whole
  pixels, content protection, the dock and tray, and destroyed-window
  checks are left out.
- Vendor SDKs and prompts are left out. Each call is replaced by the reply
  it gives. The prompt text, model names sent, temperatures and token
  limits are not modelled.
- `JSON.parse` is replaced by a function parameter (`Processing.ParseOutcome`).
- Most regular-expression captures are replaced by functions
  (`ResponseParsing.Extractors`): the thoughts section, the bullet lines,
  the time and space complexity captures, and the debug bullet lines. Code
  fences, `O(...)` tokens, bullet-marker strips and heading replacements
  are spelled out.
- File I/O is a map from path to bytes. For screenshots, whether a write,
  read or unlink fails is a parameter. Directory listing is the map's key
  set.
- Config.ConfigManager: a failed save of config.json is not modelled.
  `saveConfig` catches a failed directory creation or write and only logs
  it, so the file stays missing or keeps its old contents, while
  `updateConfig` still returns and announces the new config. The model
  assumes every save succeeds: its constructor, `LoadConfig`,
  `UpdateConfig` and `SetOpacity` always leave the saved config in the
  file.
- Base64 encoding is a function parameter of the preview operations.
- uuid generation is a parameter.
- Concurrency and aborts are not modelled. Runs are sequential, and an
  abort controller is only its "in flight" flag.
- The "processing-status" progress messages are left out. They carry only
  progress text.
- The per-helper "Failed to initialize ... client" re-checks are left out.
  They cannot be reached after the run's own client check.
- Waiting for initialisation and the renderer's language polling
  (`getLanguage` in the processing manager) are left out. The language
  only enters prompts.
- The other IPC handlers (window moves, opacity, language, visibility
  toggles and the like) are left out. Each only forwards to a modelled
  state function.
- Keyboard shortcuts are left out. Each only forwards to a modelled
  operation.
- The dialog's `handleSave` is left out. It forwards to the update handler.
- The `processingManager?` and `screenshotManager?` checks for a missing
  instance before initialisation are left out. The model always has both.
- ResponseParsing.SolutionThoughts: the default thought is not stated to be
  trimmed, because proving it of the long literal is costly.
- Ipc.IpcHandler.UpdateConfig: only the provider and key are stated to load
  back from the saved file. When the stored models do not suit the stored
  provider (see Config.LoadKeepsDefaultModelForOpenAI), a later load can
  re-sanitise them.
- Ipc.DeleteLastDropsLast requires the last path to occur once in its queue.
  Fresh uuids make that hold in practice, but nothing enforces it.
- Config.ConfigManager.UpdateConfig: the `catch` that returns the defaults
  is not modelled. `saveConfig` catches its own write errors, so only a
  throwing `trim` (a non-string key) or a throwing listener reaches it;
  the model has neither.
- Config.StoredConfig holds each field as a string (a real for the
  opacity) or as absent. JSON `null`, and numbers, booleans or objects in
  string fields, are not modelled; the source's truthiness tests on such
  values are left out with them.
- ResponseParsing.BuildDebugResult uses the debug thoughts as the source
  computes them (`DebugThoughts`). The corrected `DebugThoughtsIntended`
  is stated and compared with them, but no run uses it.

## Findings

| source | as written | input that shows it | evidently intended | confidence | as-written member | corrected member |
|---|---|---|---|---|---|---|
| src/main/lib/processing-manager.ts:979-988 | the global bullet match makes every bullet that is not at the very start of the content begin with a line feed, and the marker strip allows only spaces before the marker, so every such bullet keeps its "- " marker (in practice usually every bullet, since the prompt asks for headings first) | debug content "a\n- x": the bullet "\n- x" becomes the thought "- x" | the thought "x", as for the first bullet and as in the solution thoughts | medium, not executed | ResponseParsing.DebugThoughtsKeepLaterMarker | ResponseParsing.DebugThoughtsIntendedDropLaterMarker |
