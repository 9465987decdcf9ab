# VideoStudio editor core in Dafny

This project models the logic of a browser video editor (marcooi/video-editor). The editor is a React page that drives an ffmpeg.wasm engine. The model covers four parts of it:

- **The App component** (`App`, with `Commands` and `Engine`). It loads the engine. It holds the chosen files, the mode (trim or merge) and the job status (`idle`, `processing`, `completed`, `error`) with its progress and error message. It runs the two jobs:
  - **trim:** stage `input.mp4`, run a stream-copy cut, read `output.mp4`, download `trimmed-<name>`;
  - **merge:** stage `input0.mp4 … input{n-1}.mp4`, write a concat manifest `list.txt`, run the concat demuxer, read `merged.mp4`, download `merged-video.mp4`.

  A job stops at the first engine call that rejects, then reports a fixed message. What a job does is logged in a ghost effect log: status, progress and message updates, each engine call with its outcome, and downloads. The fields `loaded`, `files` and `mode` are not logged; the methods that change them state their new values directly. Each handler's new log is stated as the log of an abstract job (`JobEffects`) over a plan of calls (`TrimPlan`, `MergePlan`). The lemmas about that job state:
  - which calls happen, and in what order;
  - when a download happens;
  - how the status ends;
  - that the manifest is written only after every clip was staged.

  The argument vectors are read back by a small reading of ffmpeg's command line (options before `-i` apply to the input, the rest to the output), so their meaning is stated, not just their tokens.
- **The trim editor** (`TrimEditor`):
  - the `m:ss` clock (`formatTime`), with JavaScript's `Math.floor` and truncating `%`;
  - the start and end markers, kept one second apart by clamping;
  - the load of the duration;
  - the playback wrap at the end marker and the play/pause toggle;
  - the schedule of the twelve timeline thumbnails.
- **The merge editor** (`MergeEditor`):
  - drag reordering as a move (splice out, splice in), never a swap;
  - removal by index, with cancel once the list is empty;
  - append on upload;
  - the two-clip minimum for merging.
- **The upload widget** (`VideoUploader`): the `video/` MIME filter on drop, and the single or multiple selection on drop and on file-input change.

Modules: `Wrappers` (Option), `Media` (the file record), `Text` (decimal digits), `Commands`, `Engine`, `App`, `TrimEditor`, `MergeEditor`, `VideoUploader`.

Two kinds of outside behaviour are parameters, not model code:
- **The engine's outcomes.** Each call may succeed or fail at the engine's choice, except that nothing succeeds before a successful load.
- **Rendering of numbers.** `Number.prototype.toString` is the `show` function given to the `App` constructor.

What the code does, and does not do, at the edges of a job:
- The code does not clear the previous error message when a job starts. Only a failing job overwrites it, and `reset` keeps it.
- The handlers have no guard against being re-entered while a job runs.
- A start without a loaded engine or without enough files returns silently. No error is reported.
- A failed engine call is reported with the fixed per-job message, not with the engine's diagnostic text. Only a load failure carries the engine's message.
- A call fails only when its promise rejects. `exec` resolves with ffmpeg's exit code, and the handlers ignore that code. A command that exits with an error therefore ends the job only if the following `readFile` rejects. If a partial output exists, it is downloaded and the status becomes `completed`. In the model, the outcome of `Exec` means that the call resolved, not that the command exited with 0.
- `handleTrim` does not check the range before `exec`. The start and the length `end - start` are passed as the page renders them.
- For clips shorter than one second, the marker clamps do not keep the range ordered. Setting the start of a 0.5 s clip to 0.2 gives a start of −0.5 (`TrimEditor.ShortClipStartGoesNegative`). The range invariant is proved for durations of at least one second.

## Model

| member | source | states |
|---|---|---|
| App.App.constructor | src/App.tsx:12-18 | starts with the engine not loaded, trim mode, no files, status idle, progress 0 and an empty message |
| App.App.Load | src/App.tsx:33-43 | a successful load sets `loaded` and changes nothing else the page shows; a rejected load keeps `loaded`, sets status `error` and the message "Failed to load FFmpeg: " followed by the engine's message |
| App.App.Progress | src/App.tsx:29-31 | the progress event sets progress to the fraction times 100 and nothing else |
| App.App.HandleTrim | src/App.tsx:50-87 | with no loaded engine or no file: no state change and no engine call; otherwise the log grows by exactly the trim job on the first file (processing, progress 0, the calls in plan order up to the first failure, then the download and `completed`, or the message "Failed to trim video." and `error`) |
| App.App.StageClips | src/App.tsx:99-105 | the staging loop writes clip i as `input{i}.mp4` in list order and stops at the first failed write; when all succeed, the text built is the manifest for all clips |
| App.App.HandleMerge | src/App.tsx:89-131 | with no loaded engine or fewer than two clips: no state change and no engine call; otherwise the log grows by exactly the merge job (stage every clip, write the manifest, concatenate, read back), ending in the download `merged-video.mp4` and `completed`, or the codec message and `error` |
| App.App.Step | src/App.tsx:60-86 | inside the `try`, a call is made only while every earlier call succeeded, and a failure skips the rest |
| App.App.Invoke | src/App.tsx:61 | each engine call is logged with its outcome; no call succeeds before the engine is loaded |
| App.App.Conclude | src/App.tsx:78-85 | the end of a job: the download and `completed`, or the job's message and `error` |
| App.App.Reset | src/App.tsx:133-137 | `reset` clears the files and sets status idle and progress 0; the error message, the mode and `loaded` are unchanged |
| App.App.DismissStatus | src/App.tsx:145 | the overlay's reset sets only the status to idle |
| App.App.SwitchMode | src/App.tsx:162 | the mode tabs set the mode and then reset |
| App.App.Upload | src/App.tsx:213 | the uploader's files replace the current files |
| App.App.AddFiles | src/App.tsx:230 | files added in the merge editor are appended after the current ones |
| App.TrimPlan | src/App.tsx:56-72 | the trim plan stages the first file, then runs a command, then reads a file back |
| App.TrimPlanConnects | src/App.tsx:57-72 | the trim plan stages the clip under the name the command reads as its input, and reads back the file the command names as its output |
| App.TrimDownload | src/App.tsx:78 | the trimmed clip is downloaded under a name that ends with the original file name and differs from the merge download name |
| App.StagingCalls | src/App.tsx:101-103 | call i writes file i under the name `input{i}.mp4`, one call per clip |
| App.MergePlan | src/App.tsx:101-117 | the merge plan is the staging calls, then the write of `list.txt` with the manifest, then the concat exec, then the read of `merged.mp4` |
| App.MergePlanConnects | src/App.tsx:107-117 | the merge plan writes the manifest under the name the command reads as its input, and reads back the file the command names as its output |
| App.JobCalls | src/App.tsx:60-86 | a job calls the engine with exactly the plan's calls up to and including the failed one, in plan order |
| App.JobDownloads | src/App.tsx:72-79 | a job downloads exactly once, under the job's name, when every call succeeded, and never otherwise |
| App.JobStatuses | src/App.tsx:53-85 | the status goes to `processing`, then to `completed` on success or `error` on failure, and is set exactly twice |
| App.JobErrors | src/App.tsx:81-85 | the error message is set once, to the job's message, exactly when the job failed, and never on success |
| App.ProcessingBeforeCalls | src/App.tsx:53-61 | status `processing` and progress 0 come before the first engine call; entry k+2 of the log is plan call k with its outcome; the end of the job comes after the last call |
| App.ManifestAfterStaging | src/App.tsx:101-107 | `list.txt` is written only as call n, after every one of the n clips was staged successfully as `input{i}.mp4`; its text splits into exactly the n manifest lines |
| App.AttemptsContain | src/App.tsx:60-86 | the attempted calls are a prefix of the plan; attempts start no download and set no status or message |
| App.AttemptsAt | src/App.tsx:60-86 | attempt k is plan call k with outcome k |
| Engine.FFmpeg.Load | src/App.tsx:34-38 | the engine is loaded afterwards exactly when it was before or this load succeeded |
| Engine.FFmpeg.WriteFile | src/App.tsx:61 | staging cannot succeed before the engine is loaded |
| Engine.FFmpeg.Exec | src/App.tsx:64-70 | a command cannot succeed before the engine is loaded |
| Engine.FFmpeg.ReadFile | src/App.tsx:72 | reading the output cannot succeed before the engine is loaded |
| Engine.FFmpeg.Perform | src/App.tsx:61-72 | any call fails before the engine is loaded |
| Commands.TrimArgsMeaning | src/App.tsx:64-70 | the trim argument vector reads as input `input.mp4` seeked with `-ss <start>`, output `output.mp4` limited by `-t <length>` with stream copy |
| Commands.MergeArgsMeaning | src/App.tsx:109-115 | the merge argument vector reads as input `list.txt` with the concat demuxer and `-safe 0`, output `merged.mp4` with stream copy |
| Commands.ParseRender | src/App.tsx:64-70 | every well-formed invocation reads back from the argument vector that spells it |
| Commands.ParseFlatten | src/App.tsx:64-70 | option/value pairs spelled out read back as the same pairs, with the rest of the vector intact |
| Commands.SplitRendered | src/App.tsx:66 | the options before `-i`, its file and the options after it are recovered from the spelled-out pairs |
| Commands.FlattenAppend | src/App.tsx:64-70 | spelling out two lists of options is spelling out each in turn |
| Commands.InputName | src/App.tsx:102 | a staged clip name is never `list.txt` or `merged.mp4` |
| Commands.InputNamesDistinct | src/App.tsx:102 | different clip indexes give different staged names |
| Commands.ManifestLines | src/App.tsx:104 | line i of the manifest is `file 'input{i}.mp4'` for each of the n clips |
| Commands.ManifestGrows | src/App.tsx:104 | each loop step extends the manifest by exactly the next clip's line and a line break |
| Commands.JoinLinesAppend | src/App.tsx:104 | joining one more line appends it with its line break |
| Commands.ManifestHasOneLinePerInput | src/App.tsx:99-107 | the manifest text splits back into exactly n lines, line i naming `input{i}.mp4` |
| Commands.SplitJoin | src/App.tsx:104 | lines without line breaks, joined with a break after each, split back into the same lines |
| Commands.ManifestLineHasNoBreak | src/App.tsx:104 | a manifest line contains no line break |
| Commands.LineBreakIndex | src/App.tsx:104 | the index found is that of the first line break, or the end of the text when there is none |
| Commands.ManifestExample | src/App.tsx:101-105 | three clips give the lines `file 'input0.mp4'`, `file 'input1.mp4'`, `file 'input2.mp4'` |
| Text.NatToString | src/App.tsx:102 | the decimal rendering of `i` in a name is non-empty, all digits, and has no leading zero |
| Text.IntToString | src/components/TrimEditor.tsx:10 | the rendering of an integer is non-empty and all digits exactly when the integer is non-negative |
| Text.ParseNatToString | src/App.tsx:102 | reading the decimal rendering back gives the number |
| Text.NatToStringInjective | src/App.tsx:102 | different numbers render differently |
| Text.DigitChar | src/components/TrimEditor.tsx:10 | a value below ten renders as a digit character |
| Text.DigitValue | src/components/TrimEditor.tsx:10 | a digit character reads as a value below ten |
| TrimEditor.Trunc | src/components/TrimEditor.tsx:10 | `%` truncates its quotient toward zero: the result is within one below a non-negative value and within one above a negative one |
| TrimEditor.PadStartFills | src/components/TrimEditor.tsx:10 | `padStart(2, '0')` keeps the text at the end, fills to two characters and fills only with zeros |
| TrimEditor.FormatTime | src/components/TrimEditor.tsx:7-11 | for a non-negative time the clock has a colon followed by exactly two characters |
| TrimEditor.FormatTimeReadsBack | src/components/TrimEditor.tsx:7-11 | the clock of a non-negative time reads back as its whole seconds: minutes, a colon, two digits below 60 |
| TrimEditor.FloorSplit | src/components/TrimEditor.tsx:8-9 | for a non-negative time the minutes and seconds fields are the quotient and remainder of the whole seconds by 60 |
| TrimEditor.PaddedSeconds | src/components/TrimEditor.tsx:10 | a seconds value below 60 is padded to two digits that read back as the value |
| TrimEditor.FormatTimeExample | src/components/TrimEditor.tsx:7-11 | 125 seconds shows as `2:05` |
| TrimEditor.MetadataLoaded | src/components/TrimEditor.tsx:131-136 | loading metadata sets both the duration and the end to the probed duration and keeps the start; from start 0 and a duration of at least one second the range is ordered |
| TrimEditor.ClampStart | src/components/TrimEditor.tsx:227 | the new start is the slider value or `end - 1`, whichever is smaller |
| TrimEditor.ClampEnd | src/components/TrimEditor.tsx:245 | the new end is the slider value or `start + 1`, whichever is larger |
| TrimEditor.ApplyInput | src/components/TrimEditor.tsx:225-246 | a slider change moves only its own marker, keeps the duration, and keeps an ordered range ordered for values on the track |
| TrimEditor.ApplyInputs | src/components/TrimEditor.tsx:219-252 | a series of slider changes keeps the duration; changes of only the start slider keep the end, and changes of only the end slider keep the start |
| TrimEditor.InputsKeepOrdered | src/components/TrimEditor.tsx:219-252 | any sequence of slider changes with values in `[0, duration]` keeps `0 <= start <= end - 1 <= duration` |
| TrimEditor.ClampExample | src/components/TrimEditor.tsx:225-228 | from `[0, 120]`, setting the start to 119.7 gives `[119, 120]` |
| TrimEditor.ShortClipStartGoesNegative | src/components/TrimEditor.tsx:227 | for a 0.5 s clip, setting the start to 0.2 gives a start of −0.5 |
| TrimEditor.WrapPlayhead | src/components/TrimEditor.tsx:143-147 | the playhead stays where it is before the end marker, returns to the start marker at or past it, and so never rests at or past the end of a non-empty range |
| TrimEditor.TrimEditor.constructor | src/components/TrimEditor.tsx:116-120 | starts with duration, start, end and current time 0, not playing |
| TrimEditor.TrimEditor.LoadedMetadata | src/components/TrimEditor.tsx:131-136 | the range becomes the metadata-loaded range; playback state is unchanged |
| TrimEditor.TrimEditor.StartChanged | src/components/TrimEditor.tsx:225-229 | the start marker is clamped below `end - 1` and the video seeks to the unclamped value |
| TrimEditor.TrimEditor.EndChanged | src/components/TrimEditor.tsx:243-247 | the end marker is clamped above `start + 1` and the video seeks to the unclamped value |
| TrimEditor.TrimEditor.TimeUpdate | src/components/TrimEditor.tsx:139-148 | the current time records the reported time; at or past the end marker playback pauses, `isPlaying` becomes false and the video seeks to the start marker |
| TrimEditor.TrimEditor.TogglePlay | src/components/TrimEditor.tsx:151-163 | `isPlaying` flips; starting playback at or past the end marker first seeks to the start marker |
| TrimEditor.TrimEditor.TrimClicked | src/components/TrimEditor.tsx:285 | the Trim button passes the current start and end unchanged |
| TrimEditor.SeekTimesIncrease | src/components/TrimEditor.tsx:62-74 | for a positive duration the seek targets increase strictly and lie in `[0, duration)` |
| TrimEditor.GenerateThumbnails | src/components/TrimEditor.tsx:52-88 | skipped when the duration is 0 or the URL is empty; otherwise exactly twelve frames at `i * duration / 12` in order, strictly increasing and within `[0, duration)` for a positive duration |
| MergeEditor.SpliceOut | src/components/MergeEditor.tsx:27 | `splice(i, 1)` shortens the list by one and shifts the later items down |
| MergeEditor.SpliceIn | src/components/MergeEditor.tsx:28 | `splice(i, 0, x)` puts x at i and shifts the later items up |
| MergeEditor.SpliceOutIn | src/components/MergeEditor.tsx:27-28 | removing an item just inserted at i gives the list back |
| MergeEditor.SpliceInOut | src/components/MergeEditor.tsx:27-28 | re-inserting a removed item where it was gives the list back |
| MergeEditor.MovePermutes | src/components/MergeEditor.tsx:25-28 | a move keeps the length and the multiset of items and puts the dragged item at the target |
| MergeEditor.MoveAt | src/components/MergeEditor.tsx:25-28 | the full position map of a move: the dragged item at the target, the items in between shifted by one, all others in place |
| MergeEditor.MoveKeepsOthersInOrder | src/components/MergeEditor.tsx:26-28 | without the dragged item, the list after the move equals the list before it without that item |
| MergeEditor.MoveUndo | src/components/MergeEditor.tsx:25-28 | dragging the item back to where it came from restores the list |
| MergeEditor.MoveIsNotSwap | src/components/MergeEditor.tsx:26-28 | `[a, b, c]` moving 0 to 2 gives `[b, c, a]` |
| MergeEditor.Without | src/components/MergeEditor.tsx:38 | the filter is one shorter when the index exists and the same length otherwise |
| MergeEditor.WithoutIsSpliceOut | src/components/MergeEditor.tsx:38 | the filter removes exactly the item at an existing index, and nothing for any other index |
| MergeEditor.RemoveKeepsOthers | src/components/MergeEditor.tsx:38 | after a removal the other items keep their order |
| MergeEditor.RemoveDropsOne | src/components/MergeEditor.tsx:38 | a removal drops exactly one occurrence of the removed item |
| MergeEditor.SpliceOutMultiset | src/components/MergeEditor.tsx:27 | `splice(i, 1)` drops exactly one occurrence of item i |
| MergeEditor.MergeRequest | src/components/MergeEditor.tsx:109-110 | the merge goes ahead exactly when there are at least two clips, with the list in its current order |
| MergeEditor.MergeEditor.constructor | src/components/MergeEditor.tsx:14-15 | starts with the given files and no drag in progress |
| MergeEditor.MergeEditor.DragStart | src/components/MergeEditor.tsx:17-19 | drag start records the index |
| MergeEditor.MergeEditor.DragOver | src/components/MergeEditor.tsx:21-31 | without a drag, or over the dragged row, nothing changes; otherwise the list becomes the move from the dragged index to the target and the target becomes the dragged index |
| MergeEditor.MergeEditor.DragEnd | src/components/MergeEditor.tsx:33-35 | drag end clears the dragged index |
| MergeEditor.MergeEditor.RemoveFile | src/components/MergeEditor.tsx:37-43 | the list becomes the filter without the index; cancel is called exactly when the list becomes empty |
| MergeEditor.MergeEditor.Upload | src/components/MergeEditor.tsx:90-93 | new files are appended in their order and passed to the parent |
| MergeEditor.MergeEditor.CancelClicked | src/components/MergeEditor.tsx:103 | the Cancel button calls cancel and changes nothing else |
| MergeEditor.MergeEditor.MergeClicked | src/components/MergeEditor.tsx:109-110 | the Merge button passes the current list only when it holds at least two clips |
| Media.IsVideo | src/components/VideoUploader.tsx:16 | a file is a video exactly when its MIME type starts with `video/` |
| VideoUploader.FilterVideos | src/components/VideoUploader.tsx:16 | the result is no longer than the input and holds only video files |
| VideoUploader.FilterMembers | src/components/VideoUploader.tsx:16 | a file is in the result exactly when it is in the input and is a video |
| VideoUploader.FilterKeepsOrder | src/components/VideoUploader.tsx:16 | element k of the result is the k-th video file of the input, at strictly increasing positions, and every video file is kept |
| VideoUploader.PositionsMatch | src/components/VideoUploader.tsx:16 | each kept file sits at its listed position in the input |
| VideoUploader.PositionsComplete | src/components/VideoUploader.tsx:16 | every video file's position is listed |
| VideoUploader.VideoPositions | src/components/VideoUploader.tsx:16 | the positions of the video files lie within the input |
| VideoUploader.PositionsIncrease | src/components/VideoUploader.tsx:16 | the positions of the video files increase strictly |
| VideoUploader.FirstVideo | src/components/VideoUploader.tsx:16-18 | the first kept file is the earliest video file of the input |
| VideoUploader.Drop | src/components/VideoUploader.tsx:12-20 | no upload exactly when no dropped file is a video; multiple mode passes all videos in order; single mode passes just the earliest video |
| VideoUploader.Change | src/components/VideoUploader.tsx:27-32 | an upload exactly when the input reports a file list; multiple mode passes that list itself, in order and unfiltered; single mode passes the list of its first file |
| VideoUploader.FilterAllVideos | src/components/VideoUploader.tsx:16 | filtering a list of video files returns it unchanged |
| VideoUploader.ChangeAgreesWithDrop | src/components/VideoUploader.tsx:12-32 | when every chosen file is a video, the file input passes the same list as a drop; in multiple mode with a non-video file, it passes a different list |

## Left out

- VideoUploader.Change: requires a non-empty selection in single mode. The code would pass a list holding `undefined` for an empty selection, and the model has no such value.
- Engine.FFmpeg.Exec: `ok` means that the call resolved. ffmpeg's exit code is not modelled, because the handlers ignore it.
- MergeEditor.MergeEditor.DragOver: requires the dragged index to be a valid position. An index left stale by a removal during a drag is not modelled.
- App.App.HandleTrim: progress events that arrive while `exec` runs are not interleaved, so the handler leaves progress at 0. `App.App.Progress` models a single event.
- App.App.HandleMerge: progress events that arrive while `exec` runs are not interleaved, so the handler leaves progress at 0.
- The engine itself (loading the core, its virtual filesystem, decoding and stream copy) is abstract. `fetchFile` and `writeFile` form one staging call that may fail.
- `Number.prototype.toString` is a parameter (`show`), because JavaScript's shortest round-trip rendering of a double is not modelled. Times are exact reals, not doubles, and a missing (NaN) duration is not modelled.
- Blob and object-URL creation and the anchor click are left out. Only the download name and the fact that a download happened are logged.
- The `log` handler writing into the page, the `console` output and the object-URL revocation on unmount are I/O and are left out.
- The null checks on the video, canvas and 2D-context references are left out. The model assumes the elements exist.
- Seeking and drawing of the thumbnail video and canvas, the wait for `loadeddata` and `seeked`, and the layout percentages are left out. `frameAt` stands for one seek and capture.
- Async interleaving and re-entry of the handlers are left out. Each handler runs to completion as one step.
- Rendering, the thumbnail overlay and the drag-highlight styling are presentation. src/components/ProcessingStatus.tsx is not part of this model.
- src/components/VolumeEditor.tsx is not part of this model. It is a Web Audio graph and the App component does not use it.
