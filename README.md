# Face-registration demo: a Dafny model

This project models the command-line face-registration demo of the Affectiva
vision samples and the shared pieces it is built on:

- `SubCommandParser` takes the program name and the sub-command from the
  command line, then checks the remaining arguments against the
  sub-command's options.
- `Application` dispatches on the sub-command. Each command gets a usage
  caption and a number of required positional arguments. The data directory
  is validated (`validatePath`), and only then is a `FaceDb` built and the
  command carried out on it.
- `FaceDb` runs a registration session over a video file or a webcam. Each
  frame goes to the face registrar, and the score line and pose hints are
  shown, until one of three things happens: SIGINT, a score of 100, or the
  source running dry. It also lists and removes registered ids.
- `VideoReader` is the paced frame source. `GetFrameData` decodes one frame
  with a bounded retry. `GetFrame` decodes and discards frames until one is
  at least one sampling period after the last frame it returned, and
  advances the progress bar.
- `ProgressBar` decides when the bar is drawn.
- `validatePath` chooses the data directory from the command line or an
  environment variable and insists that it exists. Both copies of it behave
  the same way.

The files, module by module:

- `wrappers.dfy` (`Wrappers`): `Option` and `Result`.
- `text.dfy` (`Text`): `std::to_string`, `atoi` and `std::setw`, with the
  lemma that `atoi` reads back what `std::to_string` wrote.
- `file_utils.dfy` (`FileUtils`): `validatePath`.
- `progress.dfy` (`Progress`): the progress bar's decision logic, as a class.
- `video.dfy` (`Video`): the capture as a sequence of attempts. It holds the
  specification functions `FrameData`, `Pace` and `Emitted`, and the
  `VideoReader` class whose methods are proved against them.
- `video_properties.dfy` (`VideoProperties`): what the pacing guarantees over
  all captures, a worked scenario, and the finding below.
- `registration.dfy` (`FaceRegistration`): registrar results, the score line,
  the id list and its read-back, and `Session`, the loop's stopping rule.
- `console.dfy` (`Terminal`): standard output as the sequence of pieces
  written to it.
- `face_db.dfy` (`FaceDatabase`): the interrupt latch, the registrar
  (answers as an input), and the `FaceDb` class.
- `command_line.dfy` (`CommandLine`): the `SubCommandParser` class.
- `application.dfy` (`FrontEnd`): the `Application` class and `run`.

Everything the program meets outside itself is an input:

- the environment and the set of existing paths;
- the registrar's answers and its list of ids;
- the video file's decode attempts;
- the webcams;
- SIGINT, as one flag per test of a loop condition.

## Model

| member | source | states |
|---|---|---|
| `Text.IntToString` | vision/face-registration-demo/FaceDb.cpp:28 | `std::to_string`: non-empty, all digits except a leading '-', the '-' is there exactly when the number is negative, and the digits have no leading zero ("0" alone excepted) |
| `Text.PadLeft` | vision/face-registration-demo/FaceDb.cpp:65 | `setw`: the field is `w` wide or the text's own length if longer (never truncated), the text at its right end, blanks before it |
| `Text.Atoi` | vision/face-registration-demo/Application.cpp:66 | `atoi`: a negative value needs a '-' after the leading blanks; without a digit after the blanks and the optional sign the value is 0 |
| `Text.AtoiOfIntToString` | vision/face-registration-demo/Application.cpp:66 | an identifier written in decimal reads back through `atoi` as itself |
| `FileUtils.Chosen` | vision/face-registration-demo/FileUtils.cpp:17-19 | a supplied path is kept; an empty one is replaced by the variable's value when the variable is set, and stays empty otherwise |
| `FileUtils.ValidatePath` | vision/shared/FileUtils.cpp:9-32 | a supplied path is validated as it is and the environment is ignored; an empty one falls back on the variable; the error names the variable exactly when both are empty; a missing path is an error naming it; success means a non-empty existing path |
| `FileUtils.ValidatePathIdempotent` | vision/face-registration-demo/FileUtils.cpp:9-30 | validating a validated path again gives the same path, whatever the environment |
| `Progress.Decide` | vision/shared/progress_bar.cpp:95-98 | an index past `n` is out of bounds (and only such an index); `n` itself is always drawn; below `n` the bar is drawn exactly on multiples of `n / frequency` |
| `Progress.ProgressBar.constructor` | vision/shared/progress_bar.cpp:29-40 | the bar has `n` steps, the update frequency defaults to `n`, nothing is drawn yet |
| `Progress.ProgressBar.SetFrequencyUpdate` | vision/shared/progress_bar.cpp:42-50 | the frequency is clamped to at most `n`, which keeps the bar's invariant |
| `Progress.ProgressBar.Progressed` | vision/shared/progress_bar.cpp:92-128 | the index is drawn exactly when `Decide` says so; an out-of-range index writes the error message instead of escaping |
| `Progress.DefaultFrequencyDrawsAll` | vision/shared/progress_bar.cpp:92-98 | with the default frequency every index up to `n` is drawn |
| `Progress.DrawnIndicesSpaced` | vision/shared/progress_bar.cpp:98 | two different drawn indices below `n` lie at least `n / frequency` apart |
| `Progress.OutOfBoundsMessage` | vision/shared/progress_bar.cpp:123-126 | the message is exactly "PROGRESS_BAR_EXCEPTION: _idx (", the index in decimal, ") went out of bounds, greater than n (", the size in decimal and ").", in that order; the text after the opening reads back through `atoi` as the index |
| `Video.FrameData` | vision/shared/VideoReader.cpp:56-86 | one grab plus at most two retries, each retry only after a failed grab or retrieve; the reported timestamp is the last position read; success needs a decoded frame, and a frame found only on a retry must lie after the position before the call |
| `Video.Pace` | vision/shared/VideoReader.cpp:40-54 | a successful call consumes capture attempts, and the frame it returns is the last one it decoded |
| `Video.Discard` | vision/shared/VideoReader.cpp:48-49 | nothing is discarded without sampling or for a timestamp that is not positive; otherwise a frame is discarded exactly when it lies less than one period after the last frame returned |
| `Video.Emitted` | vision/shared/VideoReader.cpp:40-54 | the timestamps successive calls return until the first failure; each uses up at least one attempt of the capture, so there are never more than attempts |
| `Video.InitialLastTimestamp` | vision/shared/VideoReader.cpp:11-14 | the intended seed: -1 without sampling, otherwise exactly one sampling period before 0 |
| `Video.InitialLastTimestampAsWritten` | vision/shared/VideoReader.cpp:11-14 | the seed as the expression evaluates in `unsigned int`: a value in [0, 2^32); 2^32 - 1 without sampling, 2^32 minus the period for 1 to 1000 frames per second, and 0 above that |
| `Video.Extension` | vision/shared/VideoReader.cpp:22 | `path::extension()`: a suffix of the file name (the part after the last '/') that is empty or one dot followed by neither a dot nor a separator; it is empty only when the file name is ".", ".." or has no dot |
| `Video.ExtensionOfSupported` | vision/shared/VideoReader.cpp:16-25 | every path that ends in one of the six supported extensions has that extension |
| `Video.VideoReader.constructor` | vision/shared/VideoReader.cpp:8-33 | the sampling rate, the corrected seed (`InitialLastTimestamp`), frame count 0, the capture at its start, and a progress bar over the file's frame count |
| `Video.VideoReader.Grab` | vision/shared/VideoReader.cpp:58-61 | the capture answers with its next attempt and its position becomes that attempt's timestamp |
| `Video.VideoReader.GetFrameData` | vision/shared/VideoReader.cpp:56-86 | returns what `FrameData` says, and consumes exactly the attempts it grabbed |
| `Video.VideoReader.DecodeSampled` | vision/shared/VideoReader.cpp:43-49 | returns what `Pace` says, and counts every frame decoded, discarded ones included |
| `Video.VideoReader.GetFrame` | vision/shared/VideoReader.cpp:40-54 | returns the next frame `Pace` lets through, which becomes the last one returned; the upcoming sequence of returned frames loses exactly its head; the progress bar draws the frame count, or reports it out of bounds |
| `Video.Open` | vision/shared/VideoReader.cpp:8-33 | an unsupported extension is an error naming it; a file that does not open is an error naming the path; otherwise a fresh reader in its initial state |
| `VideoProperties.PaceGate` | vision/shared/VideoReader.cpp:48-49 | a returned frame with a positive timestamp lies at least one sampling period after the last frame returned |
| `VideoProperties.PaceDiscardsOnlyBelowGate` | vision/shared/VideoReader.cpp:43-49 | every frame decoded and not returned had a positive timestamp less than one period after the last frame returned |
| `VideoProperties.PaceWithoutSampling` | vision/shared/VideoReader.cpp:43-49 | with sampling rate 0 a call is one `GetFrameData`, returned unchanged |
| `VideoProperties.EmittedSpacing` | vision/shared/VideoReader.cpp:40-54 | across successive calls, each returned positive timestamp lies at least one period after the previous one returned |
| `VideoProperties.FirstFrameAlwaysReturned` | vision/shared/VideoReader.cpp:11-14 | with the intended seed the first decoded frame is always returned, as the source's comment promises |
| `VideoProperties.FiveFramesPerSecondScenario` | vision/shared/VideoReader.cpp:40-54 | ten frames 100 ms apart, sampled at 5 per second, give the frames at 0, 200, 400, 600 and 800 ms |
| `VideoProperties.AsWrittenSeedDiscards` | vision/shared/VideoReader.cpp:11-14 | with the seed as written, every frame with a position in (0, 2^32) ms is discarded |
| `VideoProperties.AsWrittenSeedReturnsNothing` | vision/shared/VideoReader.cpp:11-14 | with the seed as written, a capture of such frames yields no frame at all |
| `VideoProperties.SeedWitnessAsWritten` | vision/shared/VideoReader.cpp:11-14 | two frames at 100 ms and 300 ms, sampled at 5 per second, give nothing with the seed as written |
| `VideoProperties.SeedWitnessIntended` | vision/shared/VideoReader.cpp:11-14 | the same capture gives both frames with the intended seed |
| `FaceRegistration.Orientation.Glyph` | vision/face-registration-demo/FaceDb.cpp:40-61 | each pose's letter is its entry in "cudlr": c for center, u up, d down, l left, r right |
| `FaceRegistration.HintText` | vision/face-registration-demo/FaceDb.cpp:36-64 | the hint buffer keeps "Hint:" and its length; each pose's slot holds the pose's letter when the pose is hinted and a blank otherwise |
| `FaceRegistration.ScoreLine` | vision/face-registration-demo/FaceDb.cpp:65 | the score line is "\rScore=", then the score right-aligned in a field of at least three columns (`setw(3)`), then a blank and the hint text (`ScoreLaidOut`) |
| `FaceRegistration.ScoreLineReadsBack` | vision/face-registration-demo/FaceDb.cpp:65 | the score field reads back as the score |
| `FaceRegistration.DisplayLaidOut` | vision/face-registration-demo/FaceDb.cpp:34-66 | what `showResult` writes for a result: the score right-aligned in the field, a blank, and a hint buffer that shows exactly the result's hints |
| `FaceRegistration.ShownLines` | vision/face-registration-demo/FaceDb.cpp:79-81 | one score line per answer that found a face |
| `FaceRegistration.JoinIds` | vision/face-registration-demo/FaceDb.cpp:22-32 | empty exactly for no ids; a non-empty list neither starts nor ends with a blank |
| `FaceRegistration.JoinSplitPieces` | vision/face-registration-demo/FaceDb.cpp:22-32 | cutting a non-empty joined list at every " + " (and nowhere else) gives one piece per id, in order, each exactly the id's `std::to_string` text |
| `FaceRegistration.GlueSplitPieces` | vision/face-registration-demo/FaceDb.cpp:22-32 | any text cut at every " + " and glued back with " + " is the same text, so the pieces lose nothing |
| `FaceRegistration.JoinIdsGlued` | vision/face-registration-demo/FaceDb.cpp:22-32 | a non-empty joined list is exactly each id's `std::to_string` text, in order, with " + " between neighbours |
| `FaceRegistration.SplitJoinIds` | vision/face-registration-demo/FaceDb.cpp:22-32 | those pieces read back through `atoi` give the ids in order; the empty list reads back as no ids |
| `FaceRegistration.Session` | vision/face-registration-demo/FaceDb.cpp:104-109 | the stopping rule of both loops: the frames used lie between those already used and those available, and a session that ends because the source ran dry has used every frame |
| `FaceRegistration.SessionEnds` | vision/face-registration-demo/FaceDb.cpp:104-109 | a session stops only for its reason: the flag (no frame requested once it is up), a score of at least 100, or the source running dry; no signal arrived before the stop; the result is the last answer; every earlier answer scored below 100 |
| `FaceRegistration.SessionReadsAll` | vision/face-registration-demo/FaceDb.cpp:107-109 | with no signal and no earlier score of 100, every frame the source yields goes to the registrar |
| `FaceDatabase.Latch.constructor` | vision/face-registration-demo/FaceDb.cpp:12 | the exit flag starts lowered |
| `FaceDatabase.Latch.Interrupt` | vision/face-registration-demo/FaceDb.cpp:13-15 | the handler raises the flag |
| `FaceDatabase.FullFrame` | vision/face-registration-demo/FaceDb.cpp:75-76 | a point lies in the box exactly when 0 <= x <= width and 0 <= y <= height: the box is the whole frame |
| `FaceDatabase.VideoFrames` | vision/shared/VideoReader.cpp:40-54 | the number of frames a fresh reader returns for the file; never more than the capture's attempts |
| `FaceDatabase.FaceDb.constructor` | vision/face-registration-demo/FaceDb.cpp:17-20 | a registrar on the data directory, the preview setting, nothing submitted or shown yet |
| `FaceDatabase.FaceDb.RegisteredIds` | vision/face-registration-demo/FaceDb.cpp:22-32 | the loop builds `JoinIds` of the registrar's ids |
| `FaceDatabase.FaceDb.ShowResult` | vision/face-registration-demo/FaceDb.cpp:34-66 | the loop builds `HintText`, and the score line of the result is written |
| `FaceDatabase.FaceDb.ProcessFrame` | vision/face-registration-demo/FaceDb.cpp:68-89 | the whole frame is submitted; the registrar's answer is returned unchanged; the score line and preview frame appear exactly when a face was found |
| `FaceDatabase.FaceDb.VideoFrame` | vision/face-registration-demo/FaceDb.cpp:107-108 | a frame reaches the registrar exactly when the reader still has one, and the reader then has one fewer |
| `FaceDatabase.FaceDb.StartSession` | vision/face-registration-demo/FaceDb.cpp:97-102 | the banner, then the score line of a result with score 0 |
| `FaceDatabase.FaceDb.VideoLoop` | vision/face-registration-demo/FaceDb.cpp:104-109 | the loop ends as `Session` says over the frames the reader returns; the flag is up exactly on an interrupt; each frame is submitted whole, and the lines and preview frames shown match the answers consumed |
| `FaceDatabase.FaceDb.VideoSession` | vision/face-registration-demo/FaceDb.cpp:97-110 | the banner and the score line of a zero result, the session as `Session` says over the frames the reader returns, then the closing line breaks |
| `FaceDatabase.FaceDb.VideoRegister` | vision/face-registration-demo/FaceDb.cpp:91-111 | path errors and unopenable or unsupported files are errors that leave the registrar, output and flag untouched; otherwise banner, session as `Session` says over `VideoFrames`, closing line breaks |
| `FaceDatabase.FaceDb.WebcamLoop` | vision/face-registration-demo/FaceDb.cpp:132-140 | the loop ends as `Session` says over the camera's frames, with submissions, lines and preview frames matching the answers consumed |
| `FaceDatabase.FaceDb.WebcamRegister` | vision/face-registration-demo/FaceDb.cpp:113-142 | a missing camera is an error with no output; otherwise the session runs, and a failed read is an error raised after its output, without the closing line breaks |
| `FaceDatabase.FaceDb.List` | vision/face-registration-demo/FaceDb.cpp:144-146 | writes the joined ids after "Registered IDs: " |
| `FaceDatabase.FaceDb.Unregister` | vision/face-registration-demo/FaceDb.cpp:148-151 | one unregister request for the id, then the confirmation naming it |
| `FaceDatabase.FaceDb.UnregisterAll` | vision/face-registration-demo/FaceDb.cpp:153-157 | lists the ids about to go, requests removal of all, then confirms |
| `CommandLine.AsSize` | vision/face-registration-demo/SubCommandParser.cpp:26 | the `int` count as a `size_t`: unchanged when non-negative, wrapped by 2^64 when negative |
| `CommandLine.SubCommandParser.constructor` | vision/face-registration-demo/SubCommandParser.cpp:8-17 | with a sub-command, the name, the command and the remaining arguments make up `argv`; without one, the command is empty and all of `argv` stays |
| `CommandLine.SubCommandParser.Process` | vision/face-registration-demo/SubCommandParser.cpp:19-32 | keeps the positionals; passes exactly when help was not asked for and enough positionals were given (a negative count refuses); prints the options only on refusal |
| `FrontEnd.CommandOf` | vision/face-registration-demo/Application.cpp:30-76 | a word selects a command exactly when it is that command's label, and no command otherwise |
| `FrontEnd.CommandOfLabel` | vision/face-registration-demo/Application.cpp:23-27 | the five labels are distinct: each selects its own command |
| `FrontEnd.Caption` | vision/face-registration-demo/Application.cpp:90-91 | the caption is "usage: ", then exactly the program name followed by the usage, then " [options]\n\nOptions:" |
| `FrontEnd.Alternatives` | vision/face-registration-demo/Application.cpp:80-84 | the "|"-separated list is empty exactly when there is no command; otherwise cutting it at every '|' gives back the commands' names, one piece per command, in the order given |
| `FrontEnd.GeneralUsage` | vision/face-registration-demo/Application.cpp:76-85 | the general usage is the banner, the program name, " <", the command alternatives and "> ... " with a line break, in that order |
| `FrontEnd.CommandsAlternatives` | vision/face-registration-demo/Application.cpp:80-84 | the alternatives of the general usage cut at '|' are "video-register", "webcam-register", "list", "unregister" and "unregister-all", in that order |
| `FrontEnd.Application.constructor` | vision/face-registration-demo/Application.cpp:18 | the command line is parsed, and no `FaceDb` exists yet |
| `FrontEnd.Application.SetCommonOptions` | vision/face-registration-demo/Application.cpp:89-111 | the options description carries the caption "usage: ", the program name, the usage, " [options]" and "Options:" |
| `FrontEnd.Application.Parse` | vision/face-registration-demo/Application.cpp:113-120 | a refused command line leaves the directory, preview and `FaceDb` unchanged; otherwise `--data` and `--preview` are taken, and a valid directory gets a fresh `FaceDb` on it while an invalid one is the error |
| `FrontEnd.Application.RegisterVideo` | vision/face-registration-demo/Application.cpp:38-41 | the video session on the identifier and file, its exception turned into the error of `run`; on success, the lines written, the interrupt flag (raised exactly when the session was interrupted), the preview frames shown and the frames submitted |
| `FrontEnd.Application.RegisterWebcam` | vision/face-registration-demo/Application.cpp:51-53 | the webcam session on the identifier and camera, its exception turned into the error of `run`; with the camera present, the lines written, the interrupt flag (raised exactly when the session was interrupted), the "Live" preview frames shown and the frames submitted; without it, nothing shown and the flag untouched |
| `FrontEnd.Application.Perform` | vision/face-registration-demo/Application.cpp:38-74 | each command acts on the new `FaceDb` with the positionals read through `atoi`: video and webcam sessions (with their output, interrupt flag and preview frames), the listing, one or all removals |
| `FrontEnd.Application.Handle` | vision/face-registration-demo/Application.cpp:30-74 | a known command builds its caption; help or too few positionals prints it and stops; an invalid data directory is the error; only a valid one builds the `FaceDb` on which the command runs |
| `FrontEnd.Application.Run` | vision/face-registration-demo/Application.cpp:22-87 | an unknown or missing sub-command prints the general usage and builds no `FaceDb`; a known one is handled by its branch |

## Behaviour the model follows

- The registration loops test the interrupt flag, then the score, and only
  then ask for a frame. There is no cancel key: nothing in the loops polls the
  keyboard, and `waitKey(30)` only paces the preview window.
- Every frame's registrar result replaces the previous one, whether or not a
  face was found. So an answer without a face can bring the score the loop
  tests back below 100.
- A failed webcam read is an error raised out of `webcamRegister`, after the
  session's output and before its closing line breaks. It does not end the
  session quietly.
- SIGINT raises a process-wide flag that is never lowered.
- The first sub-command test that matches wins. An absent or unknown
  sub-command prints the general usage and nothing else.

## Left out

- Boost's option parsing is an input: `Options` holds what it makes of the arguments. An unknown option or an unparsable value makes boost throw, and that is not modelled.
- `CommandLine.SubCommandParser.Process`: prints only the caption of the options description, not the table of options boost renders under it.
- `FrontEnd.Application.SetCommonOptions`: models the caption only. The per-option help texts are not modelled, and neither are the Windows variants of `--data`.
- `Progress.ProgressBar.Progressed`: records which indices are drawn, not the text of the bar. The bar needs the console width, and the percentage is floating point. `SetStyle`, `GetConsoleWidth`, `GetBarLength` and `ClearBarField` are left out for the same reason.
- `Progress.ProgressBar.Progressed`: `SetFrequencyUpdate(0)` is accepted (vision/shared/progress_bar.cpp:44-49), and a later call with an index below `n` then divides by zero at line 98. `Progressed` and `Decide` require a positive update frequency for such an index, so that crash is not modelled.
- `Video.VideoReader.GetFrame`: the frame's pixels are not modelled, only its timestamp and size. `TotalFrames` is the field `totalFrames`.
- `Video.Open`: the frame count is taken as a natural number. OpenCV reports it as a `double` that the source converts to `uint64_t`.
- `Text.Atoi`: returns an unbounded integer, while `atoi` returns a C `int` whose value is undefined for decimal text outside its range (glibc truncates). So for "4294967297" the model passes 4294967297 as the identifier or camera where the program would pass something else (Application.cpp:39, 52, 66).
- `FaceDatabase.FaceDb.WebcamRegister`: the camera index `camera_id + apiID` (FaceDb.cpp:119-120) is an unbounded sum; the `int` overflow of that sum is not modelled.
- `Video.Extension`: follows boost's `path::extension()` for `/`-separated paths only.
- `Video.VideoReader.constructor`: seeds the last timestamp with the corrected value `InitialLastTimestamp`, not with the `unsigned int` value the source computes (see Findings). So `Video.Open`, `FaceDatabase.VideoFrames`, `FaceDatabase.FaceDb.VideoRegister` and, through them, `FrontEnd.Application.Perform` describe the reader as intended. The seed as written appears only in `Video.InitialLastTimestampAsWritten` and the `VideoProperties` lemmas about it.
- The face SDK's registrar is an input. It answers `registerFace` from a given sequence, and once that runs out it finds no face. `getIdentities` answers from a given list, and removals are recorded as requests.
- The images passed to the registrar are not modelled; only each frame's width and height and the bounding box are.
- The preview window records the titles of the frames shown. The 30 ms `waitKey` delay is not modelled.
- A webcam is an input: a camera index maps to a number of frames and a frame size, and reading fails after the last frame.
- SIGINT is an input: one flag per test of a loop condition. Installing the handler with `signal` is not modelled.
- The one-argument `validatePath(filename)` call in `videoRegister` falls back on an environment variable whose name is a parameter. FileUtils.h, which holds that default, is not part of this model.
- The Windows branches of `validatePath` (`_wgetenv`, wide strings) are not modelled. Their behaviour is the same apart from the character type.
- The orientation enum's values are not visible. `FaceRegistration.Orientation.Ordinal` assumes they follow the order of the `switch` in `showResult`, from center 0 to right 4. The hint buffer's contracts are stated through each pose's slot, not through these numbers.
- `affdex::timestamp` is taken to be a signed 64-bit integer, and timestamps are unbounded integers. The seed's `unsigned int` wrap-around is stated by `Video.InitialLastTimestampAsWritten` and the lemmas about it, but the reader itself runs on the corrected seed. The required-count conversion to `size_t` is modelled by `CommandLine.AsSize`. The other C `int` arithmetic is on unbounded integers (see `Text.Atoi` and the camera index below).
- `main.cpp` (which catches and prints the exceptions), `VideoDemo.cpp` and `WebcamDemo.cpp` are not part of this model. The exceptions that leave `run` are `RunError` values.

## Findings

| source | as written | input that shows it | evidently intended | confidence | as-written member | corrected member |
|---|---|---|---|---|---|---|
| vision/shared/VideoReader.cpp:11-14 | the seed of the last timestamp is computed in `unsigned int`, because the sampling rate is unsigned. With sampling on, `0 - 1000 / rate` wraps to 2^32 - 1000 / rate, which a 64-bit timestamp keeps as a large positive value. The gate then discards every frame whose position lies below 2^32 ms, and the reader returns nothing | sampling rate 5 on a capture of two frames, at 100 ms and 300 ms: no frame is returned (a first frame at 0 ms slips through because the gate ignores timestamps that are not positive) | the seed is one sampling period before 0 (-200 ms at 5 per second), so the first frame is always returned and here both frames are | medium, not executed (depends on `affdex::timestamp` being a signed 64-bit type) | `VideoProperties.SeedWitnessAsWritten` | `VideoProperties.SeedWitnessIntended` |
