# Speech-to-text recorder and recording history: a Dafny model

This project models the two commands of a Raycast extension that records
microphone audio with `sox` and keeps past recordings on disk:

- **Recording history** (`src/stt-history.tsx`). The recordings directory
  under the extension's support path holds one folder per recording. A folder
  counts as a recording when it holds `recording.wav`. It may also hold
  `transcription.txt` and `metadata.json` (`{title, timestamp, createdAt}`).
  The command lists the recordings newest first, renames one by overwriting
  its metadata, deletes one folder, or deletes them all.
  Module `History` models the directory as a map from folder name to a
  `Folder` record. `RecordingStore` is a class over that map. Its operations
  are the loading loop with its in-place sort, the rename form's submit, and
  the two deletions.
- **Recorder** (`src/convert-speech-to-text.tsx`). One form action starts a
  `sox` capture into `~/Downloads/recording-<timestamp>.wav`. While recording,
  the same action stops it with SIGINT. Module `Recorder` models the
  command's three mutable pieces of state as a class `RecorderCommand`: the
  `isRecording` flag, the process reference and the output-file reference.
  Pure transition functions (`Started`, `Stopped`, `Toggle`) on a
  `RecorderState` value specify it. `Started` is made of the two halves the
  handler runs on either side of an awaited toast, `BeginStart` and
  `CompleteStart`. The process is an opaque `ProcessHandle`.
  What the command does to other processes is kept as a log of `Spawn` and
  `Signal` effects.

Two small helper modules support them. `Paths` holds `path.join` and
`path.dirname` on `/`-separated strings. `Wrappers` holds `Option`.

Inputs the code takes from the environment are parameters:

- the operating system's order of directory entries (`listing`);
- modification times;
- the current time, as `now` (an ISO string) or `timestamp` (milliseconds);
- the home directory;
- the user's answer to the confirmation alert (`confirmed`);
- the result of `spawn` (`Some(handle)`, or `None` when it throws).

The recorder keeps only the recording flag, the process reference and the
output path. It writes the capture into `~/Downloads`, not into the
recordings directory, and it transcribes nothing.

## Model

| member | source | states |
|---|---|---|
| `History.RecordingStore.LoadRecordings` | src/stt-history.tsx:35-100 | A missing recordings directory lists nothing. Otherwise the result is a permutation of the entries the scan pushes, and it is ordered newest first (non-increasing mtime). |
| `History.ListedMembership` | src/stt-history.tsx:48-57 | A recording is in the scanned list exactly when some listed name is a directory holding `recording.wav` and the recording is the entry built for that folder. |
| `History.ListedOnePerFolder` | src/stt-history.tsx:48-85 | The scan yields at most one entry per directory name. With a repetition-free listing, no two entries share a folder name. |
| `History.ListedBoundedByFolders` | src/stt-history.tsx:45-57 | The list is never longer than the number of entries in the recordings directory. |
| `History.EntryPaths` | src/stt-history.tsx:49-55 | The audio, transcription and metadata paths of an entry are three different files. Their directory is the folder that the entry's `folderName` names. |
| `History.EntryTitle` | src/stt-history.tsx:58-81 | The title is the parsed metadata's title when `metadata.json` parses, and the folder name otherwise. `hasMetadata` holds exactly when it parsed. `hasTranscription` mirrors `transcription.txt`. The date is the folder's mtime. |
| `History.SortNewestFirst` | src/stt-history.tsx:88 | The in-place sort leaves the array newest first and a permutation of what it was. |
| `History.RecordingStore.RenameRecording` | src/stt-history.tsx:220-246 | The metadata is rebuilt with the new title and the folder name as timestamp. It keeps the stored `createdAt` when the listing found metadata, and uses `now` otherwise. If that stored metadata can no longer be read, nothing is written. Otherwise `metadata.json` of that folder alone is overwritten, provided the folder is still a directory. Without a recordings directory nothing is written. |
| `History.RenameThenList` | src/stt-history.tsx:222-230 | After a rename, listing the folder again gives the new title and `hasMetadata`. Every other field of the entry stays the same. |
| `History.RenameTwicePreservesCreatedAt` | src/stt-history.tsx:222-230 | A rename writes the stored `createdAt` if there was one, else `now`. A second rename of the relisted entry (as the list view does after reloading) keeps the first rename's `createdAt`, whatever its own `now`. |
| `History.RenameTwiceWithStaleEntryResetsCreatedAt` | src/stt-history.tsx:225-227 | The detail view keeps the entry it was opened with (src/stt-history.tsx:267, 336), and after a rename it pops back to that view still holding the old entry (src/stt-history.tsx:237-238). For a folder first listed without metadata, a second rename from there takes the `now` branch again: the metadata on disk carries the first `createdAt`, but the second write replaces it with the second `now`. |
| `History.RecordingStore.DeleteRecording` | src/stt-history.tsx:102-131 | When confirmed, it removes exactly the folder that holds the recording's audio file (found with `path.dirname`), and every other folder stays as it was. When not confirmed, nothing changes. |
| `History.DeleteThenList` | src/stt-history.tsx:112-122 | Listing after a folder is removed gives the previous list without that folder's entry. Every other entry is unchanged and keeps its place. |
| `History.RecordingStore.DeleteAllRecordings` | src/stt-history.tsx:133-163 | When confirmed, the recordings directory exists afterwards and is empty. When not confirmed, nothing changes. |
| `Paths.DirnameOfJoin` | src/stt-history.tsx:114 | `path.dirname` of a file joined onto a directory gives back that directory. |
| `Recorder.OutputPathInDownloads` | src/convert-speech-to-text.tsx:14-16 | The output path is a file directly inside `<home>/Downloads`. |
| `Recorder.OutputPathInjective` | src/convert-speech-to-text.tsx:14-15 | Different start timestamps give different output paths, because the printed timestamp reads back as itself. |
| `Recorder.IntDecimalRoundTrip` | src/convert-speech-to-text.tsx:15 | The decimal text of the timestamp in the file name parses back to the timestamp. |
| `Recorder.CaptureArgsProfile` | src/convert-speech-to-text.tsx:23-29 | The capture is spawned with exactly `-d -r 16000 -c 1 -b 16 <outputPath>`. |
| `Recorder.StartEffect` | src/convert-speech-to-text.tsx:12-52 | Start always sets the output path first. A successful spawn then holds the new handle and sets `isRecording`. The effect log gains exactly one entry, a spawn of `sox` with the capture arguments for that path. A spawn that throws changes nothing else. |
| `Recorder.StopEffect` | src/convert-speech-to-text.tsx:54-67 | Stop sends SIGINT to the held process, and only to it, only when one is held: the effect log gains exactly that one signal, or nothing. Afterwards the handle is null and `isRecording` is false. The output path is unchanged and nothing is spawned. |
| `Recorder.StopIdempotent` | src/convert-speech-to-text.tsx:56-61 | A second stop sends no signal and changes nothing. |
| `Recorder.TransitionsKeepConsistent` | src/convert-speech-to-text.tsx:23-61 | Start and stop keep `isRecording` true exactly when a process handle is held. |
| `Recorder.ToggleKeepsCapturesAccounted` | src/convert-speech-to-text.tsx:81-85 | Used through the form's one action, one press at a time (each start completes before the next press), every capture ever spawned is either the one held or has been sent SIGINT. |
| `Recorder.StartWhileRecordingLosesHandle` | src/convert-speech-to-text.tsx:23 | Starting while a capture is held overwrites its reference. A later stop then never interrupts that capture. |
| `Recorder.OverlappingStartsLoseCapture` | src/convert-speech-to-text.tsx:14-39 | A second press of start during the first start's awaited toast passes the form's `!isRecording` test, because the flag is set only after the spawn. Both captures are spawned, the second handle overwrites the first, and the following stop interrupts only the second; the first capture is never stopped, and the path reported is the second's. |
| `Recorder.RecordingSession` | src/convert-speech-to-text.tsx:12-67 | From a fresh command, start then stop makes exactly one `sox` spawn for `~/Downloads/recording-<timestamp>.wav` and one SIGINT to that process. The reported path is that file. |
| `Recorder.RecorderCommand.constructor` | src/convert-speech-to-text.tsx:8-10 | A fresh command is not recording, holds no process and has an empty output path. |
| `Recorder.RecorderCommand.StartRecording` | src/convert-speech-to-text.tsx:12-52 | Its new state is `Started` of the old one. |
| `Recorder.RecorderCommand.StopRecording` | src/convert-speech-to-text.tsx:54-75 | Its new state is `Stopped` of the old one, and it reports the output path that was recorded at start. |
| `Recorder.RecorderCommand.PrimaryAction` | src/convert-speech-to-text.tsx:81-85 | It starts when idle and stops while recording. For a press made after the previous one completed, it keeps the flag consistent with the handle, and every capture stays either held or interrupted. |

## Left out

- Rendering is not modelled: the list, form and detail views, toasts, navigation, the clipboard and Finder actions, and the detail view's markdown. The confirmation alert is the boolean `confirmed`. "Delete All" is offered only when more than one recording is listed (src/stt-history.tsx:199), and that is presentation too.
- The detail view's delete (src/stt-history.tsx:278-308) does the same removal as the list's delete. `DeleteRecording` models both.
- File-system failures are not modelled. These include `statSync` throwing, which aborts the whole listing with a toast, and `rmSync` or `mkdirSync` failing. The exceptions are the rename's read of stored metadata and its write into a folder that no longer exists or is no longer a directory: both of those are modelled as "nothing written".
- JSON parsing and printing are abstract. A folder's `metadata.json` is `Absent`, `Unparsable` or `Parsed(m)`, and a written record reads back as itself. A file that parses but lacks `title` or `createdAt`, so that JavaScript sees `undefined`, is not modelled.
- `path.join` is plain concatenation with `/`, without normalisation. `path.dirname` does not strip trailing separators. None of the paths built here end in one.
- Creating `metadata.json` on a first rename normally bumps the folder's mtime on the file system, which would move it up the next listing. The model keeps mtimes fixed.
- History.RecordingStore.LoadRecordings: does not state that recordings with equal mtimes keep the directory order. JavaScript's sort keeps it, and the insertion sort here does too, but that is not proved.
- History.RenameTwicePreservesCreatedAt: holds only when the second rename is given the relisted entry, as from the list view. From the detail view the entry is stale, and for a folder first listed without metadata the second rename resets `createdAt`; `RenameTwiceWithStaleEntryResetsCreatedAt` exhibits this.
- History.RecordingStore.DeleteRecording: requires that the recording's audio path is the one the listing builds for its folder in this directory. Every `Recording` the source creates is built that way (src/stt-history.tsx:73-82). Removing an arbitrary path is not modelled.
- History.RecordingStore.RenameRecording: requires, in the same way, that the metadata path is the one built for its folder.
- The `sox` process is opaque. Its lifetime, its `error` event handler (src/convert-speech-to-text.tsx:31-37), asynchronous spawn failures and how it reacts to SIGINT are not modelled. The toasts themselves are not modelled. The wait before the spawn appears only as the split between `BeginStart` and `CompleteStart`; the wait after it is not modelled.
- Recorder.ToggleKeepsCapturesAccounted: holds only for presses that do not overlap. `Toggle` runs a start as one step, but the source's start awaits a toast between setting the path and spawning (src/convert-speech-to-text.tsx:18-21), and a press during that wait starts a second capture. That interleaving is exhibited by `OverlappingStartsLoseCapture`, where it loses the first capture.
- Recorder.RecorderCommand.PrimaryAction: runs both halves of a start without a break, so the class does not model two starts overlapping during the awaited toast; only the functions `BeginStart` and `CompleteStart` do.
- JavaScript prints integers of 10^21 or more in exponent notation. Such timestamps are not modelled.
- `src/lib/openai.ts` (the transcription client) is not part of this model. The code modelled here does not call it.
