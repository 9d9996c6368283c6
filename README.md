# Image-to-video serverless shim: a Dafny model

The repository turns one still image and a text prompt into a short video. It hands a
Wan 2.2 image-to-video workflow to a local ComfyUI render server. Two programs make up its
core:

- `temp_updated_script.py` builds the workflow and waits for the render. It picks the frame
  size (a fixed one, or the catalog size closest to the input image), derives a file-name
  prefix from the prompt, and lays out the twelve-node graph. It then polls the server's queue
  while printing progress percentages, and finally searches the output folders for the newest
  rendered video.
- `src/handler.py` is the serverless entry point. It starts the render server when it is not
  up, writes the job's images into the server's input folder, and queues the workflow. It then
  polls the history for up to ten minutes and locates the video through a three-tier cascade:
  the history's own outputs, the newest `*.mp4` in the output folder, and a list of glob
  patterns.

The model is split into one module per concern:

| file | module | what it holds |
|---|---|---|
| `wrappers.dfy` | `Wrappers` | `Option` and `Result` |
| `text.dfy` | `Text` | the Python `str` operations used: `strip`, `startswith`, `split(",")[1]`, `basename` |
| `safe_filename.dfy` | `SafeFilename` | `create_safe_filename` |
| `resolution.dfy` | `Resolution` | `calculate_auto_resolution` and the resolution switch of `create_wan2_workflow` |
| `workflow.dfy` | `Workflow` | the VAE-method choice and the node graph of `create_wan2_workflow` |
| `files.dfy` | `Files` | timestamped entries, `max(key=…)`, a stable newest-first sort, the `glob` patterns |
| `output_files.dfy` | `OutputFiles` | `get_output_files` |
| `completion.dfy` | `Completion` | the progress formulas and the loop of `wait_for_completion` |
| `handler.dfy` | `Handler` | `start_comfyui` and `handler` |

The network, the clock and the disk are parameters:

- a health-probe function for start-up;
- for image staging, what `base64.b64decode` answers for a payload and whether opening a file of a
  given name raises;
- a sequence of observations for each polling loop (what the queue and history answered, and
  the seconds elapsed);
- folder listings with timestamps, and the set of paths that exist.

The loops that update variables step by step are methods with loop invariants:

- `CalculateAutoResolution`
- `GetOutputFiles`
- `WaitForCompletion`
- `StartComfyUI`
- `StageImages`
- `LocateVideo`
- `Handle`

Most of them are proved equal to a specification function. `Run` and `Stage` are recursive
and specify `WaitForCompletion` and `StageImages`. `AutoResolution`, `Locate` and `Respond` are
not recursive themselves, but are built on the recursive `BestIndex`, `FromOutputs`,
`FirstGlobMatch` and `PollFrom`; they specify `CalculateAutoResolution`, `LocateVideo` and
`Handle`. The non-recursive `SelectOutput` specifies `GetOutputFiles`. The properties are lemmas about those
functions. `StartComfyUI` is specified directly by its postconditions over the probe answers.

Python's own behaviour is written out where it matters:

- `max` keeps the first of equal keys;
- `list.sort` is stable;
- `int()` truncates toward zero;
- `\s` and `str.isspace` use the full Unicode whitespace set;
- `split(",")[1]` raises `IndexError` when there is no comma;
- `dict[...]` raises `KeyError`;
- a string is falsy when it is empty or missing.

## Model

| member | source | states |
|---|---|---|
| Text.Strip | temp_updated_script.py:187-190 | `str.strip` yields a contiguous piece of the text that neither starts nor ends with whitespace, with only whitespace cut on either side |
| Text.TrimStart | temp_updated_script.py:187 | `lstrip` removes exactly a leading run of whitespace: the result is a suffix, starts with a non-space, and everything cut is whitespace |
| Text.TrimEnd | temp_updated_script.py:187 | `rstrip` removes exactly a trailing run of whitespace: the result is a prefix, ends with a non-space, and everything cut is whitespace |
| Text.StripEmptyIff | temp_updated_script.py:187-188 | `not prompt.strip()` holds exactly when every character of the prompt is whitespace |
| Text.IndexOf | src/handler.py:133 | the first occurrence of a character: none iff the character is absent, otherwise its position with no earlier occurrence |
| Text.SecondField | src/handler.py:133 | `split(sep)[1]` is undefined exactly when `sep` does not occur; otherwise it is the text right after the first `sep`, up to the next `sep` or the end |
| Text.SecondFieldOfSplit | src/handler.py:133 | splitting `head + sep + field + tail` gives back `field`, where neither `head` nor `field` holds `sep` and `tail` is empty or starts with `sep` |
| Text.Basename | src/handler.py:211 | `os.path.basename` yields the whole text after the last `/`: a suffix of the path without `/`, which is the whole path or is preceded by a `/` |
| SafeFilename.RemoveForbidden | temp_updated_script.py:190 | deleting `<>:"/\|?*` leaves none of them, never lengthens, keeps a clean string as it is, and deletes a single forbidden character |
| SafeFilename.RemoveForbiddenAppend | temp_updated_script.py:190 | deletion works piecewise and keeps order: the result for `a + b` is the result for `a` followed by the result for `b`; with the one-character cases this fixes every result |
| SafeFilename.JoinWhitespaceRuns | temp_updated_script.py:191 | replacing whitespace runs by `_` leaves no whitespace, adds no forbidden character, never lengthens, and keeps a space-free string as it is |
| SafeFilename.JoinOneRun | temp_updated_script.py:191 | a maximal whitespace run after space-free text becomes exactly one `_`, the text before it is kept, and the rest is treated the same way |
| SafeFilename.PyPrefix | temp_updated_script.py:192 | `s[:n]` is a prefix of `s` of length `min(n, len(s))`, or `max(0, len(s) + n)` for a negative `n` |
| SafeFilename.PyPrefixNegative | temp_updated_script.py:192 | on concrete strings, a negative bound drops characters from the end, or everything when it exceeds the length |
| SafeFilename.SafeFilename | temp_updated_script.py:184-192 | a blank prompt gives `no_prompt`; otherwise at most `max_length` characters; the result never holds whitespace or a forbidden character |
| SafeFilename.SafeNameUnchanged | temp_updated_script.py:184-192 | a non-empty name that is already safe and short enough is its own safe name |
| SafeFilename.SafeFilenameIdempotent | temp_updated_script.py:184-192 | applying the function to its own non-empty result changes nothing |
| SafeFilename.OnlyForbiddenGivesEmptyName | temp_updated_script.py:187-192 | a prompt made only of forbidden characters passes the blank check yet yields the empty name |
| Resolution.Score | temp_updated_script.py:139-143 | the score is never negative, and it is zero for a candidate with the input's aspect ratio and area |
| Resolution.BestIndex | temp_updated_script.py:135-147 | the index the strict `<` scan keeps is a catalog position; its minimality is stated by `BestIndexIsFirstMinimum` |
| Resolution.AutoResolution | temp_updated_script.py:104-154 | the catalog size at the scan's index, or 640x640 when the image cannot be measured; specified by `AutoResolutionIsClosest` |
| Resolution.BestIndexIsFirstMinimum | temp_updated_script.py:135-147 | the strict `<` scan keeps the first catalog entry with the least score: no entry scores lower, every earlier one scores higher |
| Resolution.CalculateAutoResolution | temp_updated_script.py:104-154 | the scan loop returns the auto-resolution choice, the 640x640 default when the image cannot be measured |
| Resolution.AutoResolutionIsClosest | temp_updated_script.py:119-154 | the choice is always a catalog size; for a measurable image it scores no worse than any catalog size, and every earlier size scores worse; otherwise it is the default |
| Resolution.CatalogSizeIsKept | temp_updated_script.py:119-150 | an image whose size is in the catalog gets exactly that size |
| Resolution.ZeroScoreIsSameSize | temp_updated_script.py:139-143 | a zero score means the candidate has the input's exact size |
| Resolution.CatalogIsAligned | temp_updated_script.py:120-131 | every catalog size has width and height divisible by 8 |
| Resolution.TargetSize | temp_updated_script.py:218-226 | the frame size is always a catalog size divisible by 8; `1080p` gives 1024x1024; any other non-`auto` setting gives 640x640; `auto` gives the closest-size choice |
| Workflow.VaeMethod | temp_updated_script.py:235-249 | a user choice is kept; `auto` is `tiled` iff frames > 80, `tiled_overlap` iff 60 < frames <= 80, `standard` iff frames <= 60 |
| Workflow.VaeDecodeNode | temp_updated_script.py:172-182 | the decode node reads only nodes 9 and 12, whatever the method |
| Workflow.ImageToVideoInputs | temp_updated_script.py:308-321 | the conditioning node is `WanImageToVideo` and carries the given width, height and length |
| Workflow.VideoCombineInputs | temp_updated_script.py:338-352 | the writer node is `VHS_VideoCombine` and carries the given prefix and frame rate |
| Workflow.Assemble | temp_updated_script.py:253-353 | the twelve nodes in insertion order, given the size, prefix and decode method; `AssembledLinksAllowed` and `AssembledNodes` state what they hold |
| Workflow.BuildWorkflow | temp_updated_script.py:194-355 | the workflow `create_wan2_workflow` returns; specified by `WorkflowIsWellFormed`, `WorkflowIsAcyclic`, `ConditioningCarriesSizeAndLength`, `WriterUsesPromptPrefix` and `DecodeMethodDoesNotReachGraph` |
| Workflow.FilenamePrefix | temp_updated_script.py:230-232 | the file prefix is at most 54 characters, ends with `_I2V`, and before that holds no whitespace and no forbidden character |
| Workflow.Lookup | temp_updated_script.py:253-353 | finding a node by id: it is found iff the id is in the graph, and the pair is in the graph |
| Workflow.WorkflowIsWellFormed | temp_updated_script.py:253-353 | the graph has the ids 1, 2, 3, 12, 4, 5, 6, 7, 8, 9, 10, 11 in that order, and every link names a node listed earlier, so every link resolves |
| Workflow.PathsDescend | temp_updated_script.py:253-353 | along any chain of links in a graph whose links point back, positions strictly decrease |
| Workflow.WorkflowIsAcyclic | temp_updated_script.py:253-353 | no chain of links in the built graph returns to its start node |
| Workflow.ConditioningCarriesSizeAndLength | temp_updated_script.py:218-228 | node 8 is `WanImageToVideo` with the chosen frame size and `length` equal to the frame count |
| Workflow.WriterUsesPromptPrefix | temp_updated_script.py:230-232 | node 11's `filename_prefix` is the safe name of the prompt (at most 50 characters) followed by `_I2V`, and its `frame_rate` is the requested fps |
| Workflow.DecodeMethodDoesNotReachGraph | temp_updated_script.py:235-249 | the graph is the same whatever VAE decode method is requested: the chosen method is computed but not used |
| Files.NewestIndex | temp_updated_script.py:535 | `max(key=ctime)` picks an entry no older than any other, with every earlier entry strictly older |
| Files.FirstNewestUnique | temp_updated_script.py:535 | only one position has both properties of `max`'s pick |
| Files.SortNewestFirst | src/handler.py:202 | sorting by mtime in reverse gives a permutation of the files, newest first |
| Files.InsertNewestFirst | src/handler.py:202 | one insertion step of the stable sort keeps the order and adds exactly the element |
| Files.SortHeadIsNewest | src/handler.py:202-203 | the head after the stable reverse sort is the element `max` would pick |
| Files.Matches | temp_updated_script.py:528-532 | `fnmatch` against `*_I2V_*.mp4`, `*.mp4` and `*.webm`; `MatchesExamples` shows empty stars, a whole marker and a case-sensitive extension |
| Files.MatchesExamples | temp_updated_script.py:528-532 | `clip_I2V_00001_.mp4` and `_I2V_.mp4` match the marker pattern, while `clip_I2V.mp4` and `clip_00001_.mp4` do not; `clip.mp4.part` and `clip.MP4` are not `*.mp4` names |
| Files.I2vIsMp4 | temp_updated_script.py:528-530 | a `*_I2V_*.mp4` name is also a `*.mp4` name |
| Files.Glob | temp_updated_script.py:528-532 | a glob never returns more entries than listed, and a one-entry listing gives that entry iff it matches |
| Files.GlobAppend | temp_updated_script.py:528-532 | a glob keeps listing order: the matches of `a + b` are those of `a` followed by those of `b`; with the one-entry case this fixes every result |
| Files.GlobMembers | temp_updated_script.py:528-532 | a file is in a glob's result iff it is listed and matches the pattern |
| OutputFiles.Candidates | temp_updated_script.py:527-532 | a missing folder gives nothing; otherwise the whole glob result of the first tier with a matching file: `*_I2V_*.mp4`, else `*.mp4`, else `*.webm` |
| OutputFiles.PickIn | temp_updated_script.py:534-535 | the pick in a folder is one of its candidates; `PickInIsNewestOfTier` states that it is the newest |
| OutputFiles.SelectOutput | temp_updated_script.py:519-544 | the path returned: the video folder's pick, else the output folder's, else none; specified by `SelectOutputSpec` |
| OutputFiles.GetOutputFiles | temp_updated_script.py:519-544 | the search loop over the video folder and then the output folder returns the specified selection |
| OutputFiles.PickInSomeIff | temp_updated_script.py:527-537 | a folder yields a file iff it exists and lists an `.mp4` or `.webm` file |
| OutputFiles.PickInIsNewestOfTier | temp_updated_script.py:534-535 | the pick is the newest file of its tier, and every tier file listed earlier is strictly older |
| OutputFiles.PickInPrefersTiers | temp_updated_script.py:528-532 | an `_I2V_` mp4 wins when there is one, then any mp4, and the pick is always an mp4 or a webm |
| OutputFiles.SelectOutputSpec | temp_updated_script.py:519-544 | nothing is found iff neither folder holds a video, and the video folder wins when it holds one |
| Completion.Trunc | temp_updated_script.py:481 | `int()` truncates toward zero, for positive and negative arguments |
| Completion.RunningProgress | temp_updated_script.py:478-481 | the running percentage; its band and monotonicity are stated by `RunningProgressBounds` |
| Completion.PendingProgress | temp_updated_script.py:493-495 | the pending percentage; its band is stated by `PendingProgressBounds` |
| Completion.ProcessingProgress | temp_updated_script.py:497-499 | the processing percentage; its band is stated by `ProcessingProgressBounds` |
| Completion.TruncMonotone | temp_updated_script.py:481 | truncation never decreases on non-negative reals |
| Completion.RunningProgressBounds | temp_updated_script.py:478-481 | the running percentage stays in [22, 95], never decreases as time passes, and is 95 iff the expected duration has elapsed |
| Completion.PendingProgressBounds | temp_updated_script.py:493-495 | the pending percentage stays in [5, 20] and is 20 from 30 seconds on |
| Completion.ProcessingProgressBounds | temp_updated_script.py:497-499 | the processing percentage never exceeds 99, is at least 95 once the expected duration has passed, is 99 forty seconds later, and is below 95 up to ten seconds before it |
| Completion.StatusOf | temp_updated_script.py:409-439 | the prompt is `running` iff it is in the running queue, `pending` iff it is only in the pending queue, and `processing` iff it is in neither |
| Completion.Decisive | temp_updated_script.py:443-468 | a snapshot ends the wait when the prompt is in neither queue and the history reports an error, a file is found, or more than 60 s have passed |
| Completion.Decision | temp_updated_script.py:443-468 | the outcome of a decisive snapshot; specified by `DecisionSpec` |
| Completion.Run | temp_updated_script.py:394-517 | the passes of the loop one after another; specified by `RunEndsAtFirstDecisive` and `ReportsInBands` |
| Completion.Tick | temp_updated_script.py:394-503 | one pass returns iff the prompt has left both queues and the history reports an error, a file is found, or more than 60 s have passed |
| Completion.WaitForCompletion | temp_updated_script.py:386-517 | the polling loop ends with the outcome and prints the progress lines of the pass-by-pass specification |
| Completion.ReportsInBands | temp_updated_script.py:471-501 | every progress line is in its status's band: running 22-95, pending 5-20, processing at most 99 |
| Completion.RunEndsAtFirstDecisive | temp_updated_script.py:443-468 | the wait goes on while no snapshot is decisive, and ends with the decision of the first decisive snapshot |
| Completion.DecisionSpec | temp_updated_script.py:443-468 | an error status ends the wait without a file; a completed wait returns what `get_output_files` finds, preferring the video folder; "no output" means neither folder holds a video |
| Completion.FirstSnapshotReports | temp_updated_script.py:438-441 | the first snapshot of a queued prompt always prints a progress line, because its status counts as changed |
| Handler.StartComfyUI | src/handler.py:61-97 | start-up succeeds iff the first probe or one of 30 probes after the launch answers ok; the server is launched only when the first probe fails; probing stops at the first ok |
| Handler.StripDataUri | src/handler.py:131-133 | data without a `data:image` prefix is kept; a data URI without a comma raises `IndexError`; otherwise the payload holds no comma |
| Handler.DataUriPayload | src/handler.py:131-133 | the payload of a data URI is the text between its first comma and the next one, or the end, whatever follows |
| Handler.StageOne | src/handler.py:130-145 | staging one image fails with the message of the first step that raises: the `IndexError` of the strip, else the decoder's error, else the error of opening the file; it succeeds iff none raises, and then writes the decoded bytes under the image's name |
| Handler.Stage | src/handler.py:124-145 | the staging loop writes at most one file per image, each under a non-empty name that can be created |
| Handler.StageImages | src/handler.py:124-145 | the staging loop makes the specified writes, in order, and stops at the first exception |
| Handler.KeptImages | src/handler.py:126-130 | exactly the images with both a name and data are kept, and a one-image list keeps its image iff it has both |
| Handler.KeptImagesAppend | src/handler.py:126-130 | keeping images preserves order: the kept images of `a + b` are those of `a` followed by those of `b` |
| Handler.StageSpec | src/handler.py:124-145 | one file per kept image, in order, named after it and holding its decoded payload, up to the first kept image that fails a step; that image's exception is the error, and without one every kept image is written |
| Handler.StageFailsIff | src/handler.py:124-145 | staging fails iff some kept image has a data URI without a comma, a payload that does not decode, or a name whose file cannot be created |
| Handler.FromOutputs | src/handler.py:175-194 | the first tier returns only a file name that exists under the output folder, and raises only `IndexError` or `KeyError('filename')` |
| Handler.NewestMp4 | src/handler.py:196-212 | the second tier returns a base name without `/`; `NewestMp4IsNewest` states which one |
| Handler.FirstGlobMatch | src/handler.py:214-234 | the third tier returns a base name without `/`; `NoGlobMatchIff` and `FirstMatchingPatternWins` state which one |
| Handler.Locate | src/handler.py:175-243 | the three tiers in turn; specified by `LocateTiers`, `LocateFailsOnlyInFirstTier` and `LocationUnknownIff` |
| Handler.PollFrom | src/handler.py:164-247 | the poll loop from a given pass on; specified by `FirstAnswerDecides`, `TimeoutReported` and `PollFailures` |
| Handler.Respond | src/handler.py:99-250 | the handler's answer and its image writes; specified by `RespondCases`, `QueueRejectionReported` and `FailuresAreReported` |
| Handler.LocateVideo | src/handler.py:175-243 | the three-tier search returns the specified cascade's answer |
| Handler.AllPassedOverFindsNothing | src/handler.py:175-194 | the first tier finds nothing when every output node lacks `videos` or names a missing file |
| Handler.FirstUnpassedDecides | src/handler.py:175-194 | the first output node not passed over decides the first tier: its file name when it exists, otherwise the exception (`IndexError` or `KeyError`) |
| Handler.NewestMp4IsNewest | src/handler.py:196-212 | the second tier finds a file iff the output folder has an mp4, and it is the base name of the newest one, ties going to the first listed |
| Handler.NoGlobMatchIff | src/handler.py:214-234 | the third tier finds nothing iff no remaining pattern matches |
| Handler.FirstMatchingPatternWins | src/handler.py:224-234 | the third tier returns the first match of the first pattern that matches |
| Handler.LocateTiers | src/handler.py:175-234 | a file found by the first tier is the answer; when the first tier finds nothing and the output folder has an mp4, the newest one is; otherwise the first matching glob pattern decides, or the location is unknown |
| Handler.LocateFailsOnlyInFirstTier | src/handler.py:175-250 | the cascade answers with an error iff the first tier raises, and the error carries that exception's message |
| Handler.LocationUnknownIff | src/handler.py:236-243 | "location unknown" is answered, with the history's outputs, iff every tier finds nothing |
| Handler.FirstPatternNeverFires | src/handler.py:196-234 | the third tier's first pattern is the second tier's glob, so it never matches when reached |
| Handler.Handle | src/handler.py:99-250 | the handler returns the specified response and writes the specified image files |
| Handler.QueueRejectionReported | src/handler.py:153-154 | a rejected queue request is answered with "Failed to queue workflow: " and the server's text |
| Handler.FirstAnswerDecides | src/handler.py:164-250 | when the passes before it only poll again, the first pass before the timeout that raises or finds the prompt decides the answer: `Handler error: ` with the exception, or the cascade over that entry's outputs |
| Handler.RespondCases | src/handler.py:99-250 | a failed start-up answers with its error and writes nothing; a staging exception answers `Handler error: ` with the writes made before it; a raised or rejected queue request answers with its error; an accepted one answers with the poll loop's result |
| Handler.TimeoutReported | src/handler.py:160-247 | when no history answer before ten minutes holds the prompt or raises, the answer is the timeout error |
| Handler.FailuresAreReported | src/handler.py:99-250 | every error answer is one of the four: start-up, queue, timeout, or a caught exception |
| Handler.PollFailures | src/handler.py:164-250 | an error from the poll loop is the timeout or a caught exception |

## Left out

- Network requests, `subprocess.Popen`, `time.sleep`, `time.time` and printing are not modelled as effects. The probe answers, the history answers, the snapshots and the clock readings are inputs, and the progress lines are returned as `Report` values.
- File contents are not modelled: PIL decoding, image hashes, the file written to `C:/Users/Kak/Desktop/ComfyUI/input`, and the video read back for `video_base64`. In the handler, base64 decoding and file creation are answers given by the `StagingIo` parameter, and staging returns its (file name, bytes) writes. The auto resolution takes the decoded size as `Option<Size>`; `None` stands for any decoding failure.
- Handler.StageImages: a failure of `f.write` after the file was opened, and of `os.makedirs`, is not modelled; opening is the only file step that can fail.
- Resolution.AutoResolution: Python's float arithmetic is replaced by exact reals. A candidate whose float score differs from another's only by rounding could be ranked differently.
- Completion.RunningProgress, Completion.PendingProgress and Completion.ProcessingProgress: `elapsed / expected`, `elapsed * 0.5` and `(elapsed - expected) * 0.1` are computed on exact reals, not floats. At a rounding edge, such as `elapsed - expected` just below a multiple of 10, Python's `int()` of the float product can differ by one from the model's value.
- Workflow.BuildWorkflow: the image staging that `create_wan2_workflow` does first (lines 200-214: `split(',')[1]`, `b64decode`, `mkdir` and `open`) is not modelled. Those steps can raise before any graph is built, but `BuildWorkflow` always returns a graph, and it takes the saved file's name (`input_<uuid>.png`) as a parameter. The handler's `StageOne` models the same steps for the handler's own images.
- `check_model_hash`, `check_comfyui_nodes`, `kill_stuck_comfyui_processes`, `start_comfyui_server`, `queue_workflow` and `generate_comfyui_video` are process and HTTP glue around the modelled functions and are not part of this model.
- The `clear_cache` / `clear_input_dir` branch of the handler only deletes and re-creates a folder, and is not modelled.
- The node-status branch of `wait_for_completion` (lines 413-436) only prints debugging lines, and is left out. `stuck_at_95_time` and `max_stuck_time` are never read.
- Completion.WaitForCompletion: `while True` is modelled over a finite sequence of snapshots. The `StillWaiting` outcome means the sequence ran out before a decisive snapshot.
- Completion.WaitForCompletion: a failed queue request (lines 505-517) is a pass that changes nothing. The server restart attempted after 30 seconds is not modelled.
- Completion.RunningProgressBounds: the expected duration is required to be positive. The only caller passes at least 60 seconds, and a zero would raise `ZeroDivisionError`.
- Handler.Handle: the poll sequence must reach the ten-minute timeout. This stands for the clock advancing, and it is what lets the loop end.
- Handler.Handle: the prompt id returned by the queue is not modelled. A history answer is about the queued prompt, or says the prompt is absent, so the case where the queue answer has no `prompt_id` (Python polls `/history/None`) is covered only as "absent".
- Handler.Handle: a failure of `queue_response.json()`, and of opening or reading the found video, would be a caught exception. These are not modelled separately from the listed exception cases.
- Handler.Locate: globbing is abstracted. The second tier's matches come with their mtimes; the other patterns' matches are given as lists in glob order, and `**` recursion is not computed.
- Handler.Locate and OutputFiles.GetOutputFiles: paths are strings joined with `/`. Windows separators and case-insensitive matching are not modelled.
- Files.Matches: `fnmatch` is modelled only for the three patterns used in the source (`*_I2V_*.mp4`, `*.mp4`, `*.webm`), matched case-sensitively.
