/**
 * `FaceDb`: the registration sessions over a video file or a webcam, and the
 * listing and removal of registered ids. The registrar of the face SDK, the
 * webcam, the video file and SIGINT are inputs: the registrar answers
 * `registerFace` from a given sequence of results and `getIdentities` from a
 * given list; a webcam yields a given number of frames and then fails to
 * read; a signal is a flag per test of the loop condition.
 */
module FaceDatabase {
  import opened Wrappers
  import opened Text
  import opened FileUtils
  import opened FaceRegistration
  import opened Terminal
  import Video

  // ---------------------------------------------------------------------
  // The interrupt flag
  // ---------------------------------------------------------------------

  /** The static `exitLoop_` flag, raised by the SIGINT handler `interrupt` and never lowered. */
  class Latch {
    var raised: bool

    constructor ()
      ensures !raised
    {
      raised := false;
    }

    method Interrupt()
      modifies this
      ensures raised
    {
      raised := true;
    }
  }

  // ---------------------------------------------------------------------
  // The registrar
  // ---------------------------------------------------------------------

  datatype Point = Point(x: int, y: int)
  datatype BoundingBox = BoundingBox(topLeft: Point, bottomRight: Point)

  /** Whether `p` lies in `b`, edges included. */
  predicate Inside(p: Point, b: BoundingBox) {
    b.topLeft.x <= p.x <= b.bottomRight.x && b.topLeft.y <= p.y <= b.bottomRight.y
  }

  /** The box covering a whole `width` by `height` frame: it holds exactly the frame's points. */
  function FullFrame(width: nat, height: nat): (b: BoundingBox)
    ensures forall x: int, y: int :: Inside(Point(x, y), b) <==> 0 <= x <= width && 0 <= y <= height
  {
    BoundingBox(Point(0, 0), Point(width, height))
  }

  /** One `registerFace` call: the identifier, the frame's size, and the region searched. */
  datatype Submission = Submission(identifier: int, width: nat, height: nat, box: BoundingBox)

  /** `n` submissions of whole `width` by `height` frames for `identifier`. */
  function FullFrames(identifier: int, width: nat, height: nat, n: nat): (s: seq<Submission>)
    ensures |s| == n
  {
    if n == 0 then [] else FullFrames(identifier, width, height, n - 1) + [Submission(identifier, width, height, FullFrame(width, height))]
  }

  datatype Request = UnregisterOne(identifier: int) | UnregisterEvery

  /** The SDK's `FaceRegistrar`, seen through its answers and the calls made to it. */
  class FaceRegistrar {
    const dataDir: string
    /** The answers still to come from `registerFace`. */
    var answers: seq<RegistrationResult>
    var submissions: seq<Submission>
    /** What `getIdentities` reports. */
    const identities: seq<int>
    var requests: seq<Request>

    constructor (dataDir: string, answers: seq<RegistrationResult>, identities: seq<int>)
      ensures this.dataDir == dataDir && this.answers == answers && this.identities == identities
      ensures submissions == [] && requests == []
    {
      this.dataDir := dataDir;
      this.answers := answers;
      this.identities := identities;
      submissions := [];
      requests := [];
    }

    method RegisterFace(identifier: int, width: nat, height: nat, box: BoundingBox)
      returns (r: RegistrationResult)
      modifies this`answers, this`submissions
      ensures r == AnswerAt(old(answers), 0) && answers == Remaining(old(answers), 1)
      ensures submissions == old(submissions) + [Submission(identifier, width, height, box)]
    {
      r := AnswerAt(answers, 0);
      answers := Remaining(answers, 1);
      submissions := submissions + [Submission(identifier, width, height, box)];
    }

    method Unregister(identifier: int)
      modifies this`requests
      ensures requests == old(requests) + [UnregisterOne(identifier)]
    {
      requests := requests + [UnregisterOne(identifier)];
    }

    method UnregisterAll()
      modifies this`requests
      ensures requests == old(requests) + [UnregisterEvery]
    {
      requests := requests + [UnregisterEvery];
    }
  }

  /** The `i`-th answer is still the first one after `i` have been consumed. */
  lemma AnswerAtDrop(answers: seq<RegistrationResult>, i: nat)
    ensures AnswerAt(Remaining(answers, i), 0) == AnswerAt(answers, i)
    ensures Remaining(Remaining(answers, i), 1) == Remaining(answers, i + 1)
  {
  }

  // ---------------------------------------------------------------------
  // The frame sources
  // ---------------------------------------------------------------------

  /** A webcam that opens, delivers `frames` frames of the given size, then fails to read. */
  datatype Camera = Camera(frames: nat, width: nat, height: nat)

  /** The exceptions the registration sessions throw. */
  datatype RegisterError =
    | BadPath(pathError: PathError)
    | BadVideo(openError: Video.OpenError)
    | WebcamUnavailable
    | WebcamReadFailed
  {
    function Message(): string {
      match this
      case BadPath(e) => e.Message()
      case BadVideo(e) => e.Message()
      case WebcamUnavailable => "Error opening webcam"
      case WebcamReadFailed => "Failed to read frame from webcam"
    }
  }

  const VideoBanner: string :=
    "\nApp will exit when end of video is reached, Reg score reaches 100, or by pressing ctrl-C.\n\n"
  const WebcamBanner: string := "\nApp will exit when Reg score reaches 100, or by pressing ctrl-C.\n\n"
  const SessionEnd: string := "\n\n"
  /** OpenCV's `CV_CAP_ANY`, added to the camera id to pick the capture back end. */
  const CapAny: int := 0

  const ListPrefix: string := "Registered IDs: "
  const UnregisteredPrefix: string := "Unregistered ID: "
  const ToUnregisterPrefix: string := "IDs to unregister: "
  const AllUnregistered: string := "Successfully unregistered all IDs.\n"

  /** The number of frames `GetFrame` returns for a file sampled at `rate`, from a fresh reader. */
  function VideoFrames(rate: nat, media: Video.Media): (n: nat)
    ensures n <= |media.attempts|
  {
    |Video.Emitted(rate, Video.InitialLastTimestamp(rate), 0, media.attempts)|
  }

  /** How many frames the preview window shows for the first `n` answers. */
  function Previews(preview: bool, answers: seq<RegistrationResult>, n: nat): nat {
    if preview then FacesFound(answers, n) else 0
  }

  /** `n` copies of `title`: the frames shown in a window of that title. */
  function Copies(title: string, n: nat): (c: seq<string>)
    ensures |c| == n
  {
    if n == 0 then [] else Copies(title, n - 1) + [title]
  }

  lemma Assoc<T>(a: seq<T>, b: seq<T>, c: seq<T>)
    ensures a + b + c == a + (b + c)
  {
  }

  /** One more answer: its line, its preview frame and its submission come last. */
  lemma OneMoreAnswer(answers: seq<RegistrationResult>, i: nat, preview: bool, title: string,
                      identifier: int, width: nat, height: nat)
    ensures var r := AnswerAt(answers, i);
            ShownLines(answers, i + 1) == ShownLines(answers, i) + (if r.faceFound then [Display(r)] else [])
    ensures var r := AnswerAt(answers, i);
            Copies(title, Previews(preview, answers, i + 1))
            == Copies(title, Previews(preview, answers, i)) + (if r.faceFound && preview then [title] else [])
    ensures FullFrames(identifier, width, height, i + 1)
            == FullFrames(identifier, width, height, i) + [Submission(identifier, width, height, FullFrame(width, height))]
  {
  }

  /** What one more frame adds, after what a session had already written, submitted and shown. */
  lemma OneMoreFrame(written: seq<string>, submissions: seq<Submission>, shown: seq<string>,
                     answers: seq<RegistrationResult>, i: nat, preview: bool, title: string,
                     identifier: int, width: nat, height: nat)
    ensures var r := AnswerAt(answers, i);
            written + ShownLines(answers, i + 1)
            == written + ShownLines(answers, i) + (if r.faceFound then [Display(r)] else [])
    ensures submissions + FullFrames(identifier, width, height, i + 1)
            == submissions + FullFrames(identifier, width, height, i)
               + [Submission(identifier, width, height, FullFrame(width, height))]
    ensures var r := AnswerAt(answers, i);
            shown + Copies(title, Previews(preview, answers, i + 1))
            == shown + Copies(title, Previews(preview, answers, i)) + (if r.faceFound && preview then [title] else [])
  {
    var r := AnswerAt(answers, i);
    OneMoreAnswer(answers, i, preview, title, identifier, width, height);
    Assoc(written, ShownLines(answers, i), if r.faceFound then [Display(r)] else []);
    Assoc(submissions, FullFrames(identifier, width, height, i), [Submission(identifier, width, height, FullFrame(width, height))]);
    Assoc(shown, Copies(title, Previews(preview, answers, i)), if r.faceFound && preview then [title] else []);
  }

  // ---------------------------------------------------------------------
  // FaceDb
  // ---------------------------------------------------------------------

  class FaceDb {
    const registrar: FaceRegistrar
    const preview: bool
    const latch: Latch
    const console: Console
    /** The preview window's title. */
    var title: string
    /** The titles of the frames shown in the preview window, in order. */
    var shown: seq<string>

    constructor (dataDir: string, preview: bool, latch: Latch, console: Console,
                 answers: seq<RegistrationResult>, identities: seq<int>)
      ensures fresh(registrar) && registrar.dataDir == dataDir
      ensures registrar.answers == answers && registrar.identities == identities
      ensures registrar.submissions == [] && registrar.requests == []
      ensures this.preview == preview && this.latch == latch && this.console == console
      ensures title == "" && shown == []
    {
      registrar := new FaceRegistrar(dataDir, answers, identities);
      this.preview := preview;
      this.latch := latch;
      this.console := console;
      title := "";
      shown := [];
    }

    /** `registeredIds`: the registrar's ids joined with " + ". */
    method RegisteredIds() returns (output: string)
      ensures output == JoinIds(registrar.identities)
    {
      var ids := registrar.identities;
      var separator := "";
      output := "";
      for k := 0 to |ids|
        invariant output == JoinIds(ids[..k])
        invariant separator == if k == 0 then "" else Separator
      {
        JoinIdsStep(ids, k);
        output := output + separator + IntToString(ids[k]);
        separator := Separator;
      }
      assert ids[..|ids|] == ids;
    }

    /** `showResult`: the score line, with each hint's letter written into its slot. */
    method ShowResult(result: RegistrationResult)
      modifies console
      ensures console.written == old(console.written) + [Display(result)]
    {
      var hintText := BlankHints;
      var hints := result.hints;
      for j := 0 to |hints|
        invariant hintText == HintText(hints[..j])
      {
        assert hints[..j + 1][..j] == hints[..j];
        var hint := hints[j];
        hintText := hintText[hint.Ordinal() + 6 := hint.Glyph()];
      }
      assert hints[..|hints|] == hints;
      console.Write(ScoreLine(result.score, hintText));
    }

    /**
     * `processFrame`: submit the whole frame, show the result and the frame
     * when a face was found, and hand the result back unchanged.
     */
    method ProcessFrame(width: nat, height: nat, identifier: int) returns (result: RegistrationResult)
      modifies registrar, console, this`shown
      ensures result == AnswerAt(old(registrar.answers), 0)
      ensures registrar.answers == Remaining(old(registrar.answers), 1)
      ensures registrar.submissions
              == old(registrar.submissions) + [Submission(identifier, width, height, FullFrame(width, height))]
      ensures registrar.requests == old(registrar.requests)
      ensures console.written == old(console.written) + (if result.faceFound then [Display(result)] else [])
      ensures shown == old(shown) + (if result.faceFound && preview then [title] else [])
    {
      var frameBox := FullFrame(width, height);
      result := registrar.RegisterFace(identifier, width, height, frameBox);
      if result.faceFound {
        ShowResult(result);
        if preview {
          shown := shown + [title];
        }
      }
    }

    /**
     * The part of one pass of `videoRegister`'s loop that follows the flag
     * and score tests: ask the reader for a frame and, when it returns one,
     * hand it to the registrar. `answers` are the registrar's answers at the
     * start of the session and `i` the frames handed over since.
     */
    method VideoFrame(reader: Video.VideoReader, identifier: int, ghost answers: seq<RegistrationResult>, ghost i: nat)
      returns (ok: bool, result: RegistrationResult)
      requires reader.Valid() && registrar.answers == Remaining(answers, i)
      modifies reader`lastTimestampMs, reader`currentFrame, reader`pending, reader`position
      modifies reader.progress`drawn, reader.progress`errors
      modifies registrar, console, this`shown
      ensures reader.Valid()
      ensures ok == (old(reader.Upcoming()) != []) && registrar.requests == old(registrar.requests)
      ensures ok ==> && |reader.Upcoming()| == |old(reader.Upcoming())| - 1
                     && result == AnswerAt(answers, i)
                     && registrar.answers == Remaining(answers, i + 1)
                     && registrar.submissions
                        == old(registrar.submissions)
                           + [Submission(identifier, reader.width, reader.height, FullFrame(reader.width, reader.height))]
                     && console.written == old(console.written) + (if result.faceFound then [Display(result)] else [])
                     && shown == old(shown) + (if result.faceFound && preview then [title] else [])
      ensures !ok ==> && registrar.answers == old(registrar.answers)
                      && registrar.submissions == old(registrar.submissions)
                      && console.written == old(console.written) && shown == old(shown)
    {
      var ts;
      ok, ts := reader.GetFrame();
      result := Initial;
      if ok {
        AnswerAtDrop(answers, i);
        result := ProcessFrame(reader.width, reader.height, identifier);
      }
    }

    /** The start of both sessions: the banner, then the score line of a result with score 0. */
    method StartSession(banner: string)
      modifies console
      ensures console.written == old(console.written) + [banner, Display(Initial)]
    {
      console.Write(banner);
      ShowResult(Initial);
    }

    /**
     * The loop of `videoRegister`: test the flag, then the score, then ask
     * the reader for a frame and hand it to the registrar, until one of the
     * three tests stops it. `available` is the number of frames the reader
     * still returns.
     */
    method VideoLoop(reader: Video.VideoReader, identifier: int, signals: seq<bool>, ghost available: nat)
      returns (o: Outcome)
      requires reader.Valid() && |reader.Upcoming()| == available
      modifies reader`lastTimestampMs, reader`currentFrame, reader`pending, reader`position
      modifies reader.progress`drawn, reader.progress`errors
      modifies latch, registrar, console, this`shown
      ensures o == Session(old(latch.raised), signals, old(registrar.answers), available, Initial, 0)
      ensures latch.raised == (o.ending == Interrupted)
      ensures registrar.answers == Remaining(old(registrar.answers), o.frames)
      ensures registrar.submissions
              == old(registrar.submissions) + FullFrames(identifier, reader.width, reader.height, o.frames)
      ensures registrar.requests == old(registrar.requests)
      ensures console.written == old(console.written) + ShownLines(old(registrar.answers), o.frames)
      ensures shown == old(shown) + Copies(title, Previews(preview, old(registrar.answers), o.frames))
    {
      ghost var answers0, latched0 := registrar.answers, latch.raised;
      ghost var written0, submissions0, shown0 := console.written, registrar.submissions, shown;
      var result := Initial;
      var i := 0;
      var ending := SourceEnded;
      while true
        invariant reader.Valid() && i <= available && |reader.Upcoming()| == available - i
        invariant Session(latched0, signals, answers0, available, Initial, 0)
                  == Session(latch.raised, signals, answers0, available, result, i)
        invariant registrar.answers == Remaining(answers0, i)
        invariant registrar.submissions == submissions0 + FullFrames(identifier, reader.width, reader.height, i)
        invariant registrar.requests == old(registrar.requests)
        invariant console.written == written0 + ShownLines(answers0, i)
        invariant shown == shown0 + Copies(title, Previews(preview, answers0, i))
        decreases available - i
      {
        if SignalAt(signals, i) {
          latch.Interrupt();
        }
        if latch.raised {
          ending := Interrupted;
          break;
        }
        if result.score >= 100 {
          ending := ScoreReached;
          break;
        }
        var ok, next := VideoFrame(reader, identifier, answers0, i);
        if !ok {
          break;
        }
        result := next;
        OneMoreFrame(written0, submissions0, shown0, answers0, i, preview, title, identifier, reader.width, reader.height);
        i := i + 1;
      }
      o := Outcome(ending, i, result);
    }

    /**
     * The session `videoRegister` runs once the file is open: the banner,
     * the loop over the frames the reader returns, the closing line breaks.
     */
    method VideoSession(reader: Video.VideoReader, identifier: int, signals: seq<bool>, ghost available: nat)
      returns (o: Outcome)
      requires reader.Valid() && |reader.Upcoming()| == available
      modifies reader`lastTimestampMs, reader`currentFrame, reader`pending, reader`position
      modifies reader.progress`drawn, reader.progress`errors
      modifies latch, registrar, console, this`shown
      ensures o == Session(old(latch.raised), signals, old(registrar.answers), available, Initial, 0)
      ensures latch.raised == (o.ending == Interrupted)
      ensures registrar.answers == Remaining(old(registrar.answers), o.frames)
      ensures registrar.submissions
              == old(registrar.submissions) + FullFrames(identifier, reader.width, reader.height, o.frames)
      ensures registrar.requests == old(registrar.requests)
      ensures console.written
              == old(console.written) + [VideoBanner, Display(Initial)] + ShownLines(old(registrar.answers), o.frames) + [SessionEnd]
      ensures shown == old(shown) + Copies(title, Previews(preview, old(registrar.answers), o.frames))
    {
      StartSession(VideoBanner);
      o := VideoLoop(reader, identifier, signals, available);
      console.Write(SessionEnd);
    }

    /**
     * `videoRegister`: validate the file's path, open it, then run the
     * registration loop over its frames. `variable` is the environment
     * variable the path falls back on.
     */
    method VideoRegister(identifier: int, filename: string, rate: nat,
                         variable: string, env: map<string, string>, existing: set<string>,
                         media: Video.Media, signals: seq<bool>)
      returns (r: Result<Outcome, RegisterError>)
      modifies this, latch, registrar, console
      ensures var v := ValidatePath(filename, variable, env, existing);
              v.Err? ==> r == Err(BadPath(v.error)) && title == old(title)
      ensures var v := ValidatePath(filename, variable, env, existing);
              v.Ok? ==> title == v.value
      ensures var v := ValidatePath(filename, variable, env, existing);
              v.Ok? && Video.Extension(v.value) !in Video.SupportedExtensions
              ==> r == Err(BadVideo(Video.UnsupportedExtension(Video.Extension(v.value))))
      ensures var v := ValidatePath(filename, variable, env, existing);
              v.Ok? && Video.Extension(v.value) in Video.SupportedExtensions && !media.opens
              ==> r == Err(BadVideo(Video.CannotOpen(v.value)))
      ensures var v := ValidatePath(filename, variable, env, existing);
              v.Ok? && Video.Extension(v.value) in Video.SupportedExtensions && media.opens ==> r.Ok?
      ensures r.Err? ==> registrar.answers == old(registrar.answers) && console.written == old(console.written)
                         && registrar.submissions == old(registrar.submissions) && shown == old(shown)
                         && latch.raised == old(latch.raised)
      ensures r.Ok? ==>
                var o := r.value;
                && o == Session(old(latch.raised), signals, old(registrar.answers), VideoFrames(rate, media), Initial, 0)
                && latch.raised == (o.ending == Interrupted)
                && registrar.answers == Remaining(old(registrar.answers), o.frames)
                && registrar.submissions
                   == old(registrar.submissions) + FullFrames(identifier, media.width, media.height, o.frames)
                && console.written
                   == old(console.written) + [VideoBanner, Display(Initial)] + ShownLines(old(registrar.answers), o.frames) + [SessionEnd]
                && shown == old(shown) + Copies(title, Previews(preview, old(registrar.answers), o.frames))
      ensures registrar.requests == old(registrar.requests)
    {
      var path := ValidatePath(filename, variable, env, existing);
      if path.Err? {
        return Err(BadPath(path.error));
      }
      title := path.value;
      var open := Video.Open(path.value, rate, media);
      if open.Err? {
        return Err(BadVideo(open.error));
      }
      var o := VideoSession(open.value, identifier, signals, VideoFrames(rate, media));
      return Ok(o);
    }

    /**
     * The loop of `webcamRegister`: test the flag, then the score, then read
     * a frame from the webcam and hand it to the registrar. A failed read
     * ends the loop with `SourceEnded`; the caller turns it into the error.
     */
    method WebcamLoop(cam: Camera, identifier: int, signals: seq<bool>) returns (o: Outcome)
      modifies latch, registrar, console, this`shown
      ensures o == Session(old(latch.raised), signals, old(registrar.answers), cam.frames, Initial, 0)
      ensures latch.raised == (o.ending == Interrupted)
      ensures registrar.answers == Remaining(old(registrar.answers), o.frames)
      ensures registrar.submissions
              == old(registrar.submissions) + FullFrames(identifier, cam.width, cam.height, o.frames)
      ensures registrar.requests == old(registrar.requests)
      ensures console.written == old(console.written) + ShownLines(old(registrar.answers), o.frames)
      ensures shown == old(shown) + Copies(title, Previews(preview, old(registrar.answers), o.frames))
    {
      ghost var answers0, latched0 := registrar.answers, latch.raised;
      ghost var written0, submissions0, shown0 := console.written, registrar.submissions, shown;
      var result := Initial;
      var i := 0;
      var unread := cam.frames;
      var ending := SourceEnded;
      while true
        invariant i + unread == cam.frames
        invariant Session(latched0, signals, answers0, cam.frames, Initial, 0)
                  == Session(latch.raised, signals, answers0, cam.frames, result, i)
        invariant registrar.answers == Remaining(answers0, i)
        invariant registrar.submissions == submissions0 + FullFrames(identifier, cam.width, cam.height, i)
        invariant registrar.requests == old(registrar.requests)
        invariant console.written == written0 + ShownLines(answers0, i)
        invariant shown == shown0 + Copies(title, Previews(preview, answers0, i))
        decreases unread
      {
        if SignalAt(signals, i) {
          latch.Interrupt();
        }
        if latch.raised {
          ending := Interrupted;
          break;
        }
        if result.score >= 100 {
          ending := ScoreReached;
          break;
        }
        if unread == 0 {
          break;
        }
        unread := unread - 1;
        AnswerAtDrop(answers0, i);
        result := ProcessFrame(cam.width, cam.height, identifier);
        OneMoreFrame(written0, submissions0, shown0, answers0, i, preview, title, identifier, cam.width, cam.height);
        i := i + 1;
      }
      o := Outcome(ending, i, result);
    }

    /**
     * `webcamRegister`: open the camera (`cameraId` plus `CV_CAP_ANY`, which
     * is 0), then run the loop over its frames. A read failure is an error
     * raised after the loop's output; it skips the closing line breaks.
     */
    method WebcamRegister(identifier: int, cameraId: int, cameras: map<int, Camera>, signals: seq<bool>)
      returns (r: Result<Outcome, RegisterError>)
      modifies this, latch, registrar, console
      ensures title == "Live" && registrar.requests == old(registrar.requests)
      ensures cameraId + CapAny !in cameras
              ==> && r == Err(WebcamUnavailable)
                  && registrar.answers == old(registrar.answers) && registrar.submissions == old(registrar.submissions)
                  && console.written == old(console.written) && shown == old(shown) && latch.raised == old(latch.raised)
      ensures cameraId + CapAny in cameras ==>
                var cam := cameras[cameraId + CapAny];
                var o := Session(old(latch.raised), signals, old(registrar.answers), cam.frames, Initial, 0);
                && (r == Err(WebcamReadFailed) <==> o.ending == SourceEnded)
                && (r.Ok? ==> r.value == o)
                && latch.raised == (o.ending == Interrupted)
                && registrar.answers == Remaining(old(registrar.answers), o.frames)
                && registrar.submissions
                   == old(registrar.submissions) + FullFrames(identifier, cam.width, cam.height, o.frames)
                && console.written
                   == old(console.written) + [WebcamBanner, Display(Initial)] + ShownLines(old(registrar.answers), o.frames)
                      + (if o.ending == SourceEnded then [] else [SessionEnd])
                && shown == old(shown) + Copies("Live", Previews(preview, old(registrar.answers), o.frames))
    {
      title := "Live";
      if cameraId + CapAny !in cameras {
        return Err(WebcamUnavailable);
      }
      var cam := cameras[cameraId + CapAny];
      StartSession(WebcamBanner);
      var o := WebcamLoop(cam, identifier, signals);
      if o.ending == SourceEnded {
        return Err(WebcamReadFailed);
      }
      console.Write(SessionEnd);
      return Ok(o);
    }

    /** `list`: the registered ids on one line. */
    method List()
      modifies console
      ensures console.written == old(console.written) + [ListPrefix + JoinIds(registrar.identities) + "\n"]
    {
      var ids := RegisteredIds();
      console.Write(ListPrefix + ids + "\n");
    }

    /** `unregister`: ask the registrar to forget one id, then confirm it. */
    method Unregister(identifier: int)
      modifies registrar`requests, console
      ensures registrar.requests == old(registrar.requests) + [UnregisterOne(identifier)]
      ensures console.written == old(console.written) + [UnregisteredPrefix + IntToString(identifier) + "\n"]
    {
      registrar.Unregister(identifier);
      console.Write(UnregisteredPrefix + IntToString(identifier) + "\n");
    }

    /** `unregisterAll`: list the ids about to go, forget them all, then confirm. */
    method UnregisterAll()
      modifies registrar`requests, console
      ensures registrar.requests == old(registrar.requests) + [UnregisterEvery]
      ensures console.written
              == old(console.written) + [ToUnregisterPrefix + JoinIds(registrar.identities) + "\n", AllUnregistered]
    {
      var ids := RegisteredIds();
      console.Write(ToUnregisterPrefix + ids + "\n");
      registrar.UnregisterAll();
      console.Write(AllUnregistered);
    }
  }
}
