/**
 * `Application`: the face-registration demo's front end. The sub-command
 * picks a usage text and a number of required positional arguments; only
 * when the arguments pass that gate and the data directory is valid is the
 * `FaceDb` built and the sub-command carried out on it. Everything the
 * program meets outside itself (the environment, the file system, the face
 * SDK's answers, the video file, the webcams and SIGINT) is a `World`.
 */
module FrontEnd {
  import opened Wrappers
  import opened Text
  import opened FileUtils
  import opened FaceRegistration
  import opened Terminal
  import opened CommandLine
  import opened FaceDatabase
  import Video

  /** The environment variable the data directory falls back on. */
  const DataDirVariable: string := "AFFECTIVA_VISION_DATA_DIR"

  const VideoLabel: string := "video-register"
  const WebcamLabel: string := "webcam-register"
  const ListLabel: string := "list"
  const UnregisterLabel: string := "unregister"
  const UnregisterAllLabel: string := "unregister-all"

  const VideoUsage: string :=
    " " + VideoLabel + " <identifier> <video file>\n\nRegisters a face found in the <video> file with the provided <identifier>"
  const WebcamUsage: string :=
    " " + WebcamLabel + " <identifier>\n\nRegisters a face found using webcam with the provided <identifier>"
  const ListUsage: string := " " + ListLabel + "\n\nLists ids for all registered faces"
  const UnregisterUsage: string :=
    " " + UnregisterLabel + " <identifier>\n\nRemoves registration information from database for provided <identifier>"
  const UnregisterAllUsage: string := " " + UnregisterAllLabel + "\n\nRemoves all registration information from the database"

  datatype Command = VideoRegistration | WebcamRegistration | Listing | Unregistration | FullUnregistration {
    /** The word that selects this command on the command line. */
    function Label(): (l: string)
      ensures l != "" && forall i :: 0 <= i < |l| ==> l[i] != '|'
    {
      match this
      case VideoRegistration => VideoLabel
      case WebcamRegistration => WebcamLabel
      case Listing => ListLabel
      case Unregistration => UnregisterLabel
      case FullUnregistration => UnregisterAllLabel
    }

    /** How many positional arguments the command needs. */
    function RequiredCount(): nat {
      match this
      case VideoRegistration => 2
      case WebcamRegistration => 1
      case Listing => 0
      case Unregistration => 1
      case FullUnregistration => 0
    }

    /** The usage text handed to `setCommonOptions`. */
    function Usage(): string {
      match this
      case VideoRegistration => VideoUsage
      case WebcamRegistration => WebcamUsage
      case Listing => ListUsage
      case Unregistration => UnregisterUsage
      case FullUnregistration => UnregisterAllUsage
    }
  }

  /** The command a sub-command word selects, if any. */
  function CommandOf(cmd: string): (c: Option<Command>)
    ensures c.Some? ==> c.value.Label() == cmd
    ensures c.None? <==> forall k: Command :: k.Label() != cmd
  {
    if cmd == VideoLabel then Some(VideoRegistration)
    else if cmd == WebcamLabel then Some(WebcamRegistration)
    else if cmd == ListLabel then Some(Listing)
    else if cmd == UnregisterLabel then Some(Unregistration)
    else if cmd == UnregisterAllLabel then Some(FullUnregistration)
    else None
  }

  /** Every command's word selects that command, and no other. */
  lemma CommandOfLabel(c: Command)
    ensures CommandOf(c.Label()) == Some(c)
  {
    match c
    case VideoRegistration =>
    case WebcamRegistration =>
    case Listing =>
      assert ListLabel != VideoLabel && ListLabel != WebcamLabel;
    case Unregistration =>
      assert UnregisterLabel != VideoLabel && UnregisterLabel != WebcamLabel && UnregisterLabel != ListLabel;
    case FullUnregistration =>
      assert UnregisterAllLabel != VideoLabel && UnregisterAllLabel != WebcamLabel;
      assert UnregisterAllLabel != ListLabel && UnregisterAllLabel != UnregisterLabel;
  }

  const CaptionHead: string := "usage: "
  const CaptionTail: string := " [options]\n\nOptions:"

  /** The caption of the options description: the line `process` prints on refusal. */
  function Caption(appName: string, usage: string): (c: string)
    ensures |c| == |CaptionHead| + |appName| + |usage| + |CaptionTail|
    ensures c[..|CaptionHead|] == CaptionHead
    // exactly the program name and the usage between the two fixed texts
    ensures c[|CaptionHead|..|c| - |CaptionTail|] == appName + usage
    ensures c[|c| - |CaptionTail|..] == CaptionTail
  {
    Framing(CaptionHead, appName + usage, CaptionTail);
    CaptionHead + (appName + usage) + CaptionTail
  }

  /** The commands in the order `run` tests them, which is the order the general usage lists them in. */
  const Commands: seq<Command> := [VideoRegistration, WebcamRegistration, Listing, Unregistration, FullUnregistration]

  /** The pieces of `s` between '|' characters, as a reader of the general usage takes them apart. */
  function SplitBars(s: string): (pieces: seq<string>)
    ensures |pieces| >= 1
    decreases |s|
  {
    if s == [] then [""]
    else
      var rest := SplitBars(s[1..]);
      if s[0] == '|' then [""] + rest else [[s[0]] + rest[0]] + rest[1..]
  }

  /** A word without '|' at the front of `s` joins the first piece of the rest. */
  lemma {:induction false} SplitBarsWord(w: string, t: string)
    requires forall i :: 0 <= i < |w| ==> w[i] != '|'
    ensures SplitBars(w + t) == [w + SplitBars(t)[0]] + SplitBars(t)[1..]
    decreases |w|
  {
    var pieces := SplitBars(t);
    if w == [] {
      assert w + t == t && w + pieces[0] == pieces[0];
      assert [pieces[0]] + pieces[1..] == pieces;
    } else {
      assert (w + t)[1..] == w[1..] + t;
      SplitBarsWord(w[1..], t);
      var rest := SplitBars(w[1..] + t);
      assert rest[0] == w[1..] + pieces[0] && rest[1..] == pieces[1..];
      assert [w[0]] + (w[1..] + pieces[0]) == w + pieces[0];
    }
  }

  /** Splitting a word, a '|' and more text gives the word, then the pieces of the text. */
  lemma SplitBarsAfterWord(w: string, t: string)
    requires forall i :: 0 <= i < |w| ==> w[i] != '|'
    ensures SplitBars(w + "|" + t) == [w] + SplitBars(t)
  {
    Assoc(w, "|", t);
    SplitBarsWord(w, "|" + t);
    assert ("|" + t)[1..] == t;
    assert w + "" == w;
  }

  /** A word without '|' is one piece. */
  lemma SplitBarsWhole(w: string)
    requires forall i :: 0 <= i < |w| ==> w[i] != '|'
    ensures SplitBars(w) == [w]
  {
    SplitBarsWord(w, "");
    assert w + "" == w;
  }

  /**
   * The words of `cs`, separated by "|": empty exactly when there is no
   * command, and otherwise split at '|' back into the words, in order.
   */
  function Alternatives(cs: seq<Command>): (r: string)
    ensures r == "" <==> cs == []
    ensures cs != [] ==> |SplitBars(r)| == |cs| && forall k :: 0 <= k < |cs| ==> SplitBars(r)[k] == cs[k].Label()
  {
    if cs == [] then ""
    else if |cs| == 1 then
      SplitBarsWhole(cs[0].Label());
      cs[0].Label()
    else
      var rest := Alternatives(cs[1..]);
      AlternativesStep(cs, rest);
      cs[0].Label() + "|" + rest
  }

  /** One more word in front: the pieces are that word, then the pieces of the rest. */
  lemma AlternativesStep(cs: seq<Command>, rest: string)
    requires |cs| >= 2
    requires |SplitBars(rest)| == |cs| - 1 && forall k :: 0 <= k < |cs| - 1 ==> SplitBars(rest)[k] == cs[1..][k].Label()
    ensures |SplitBars(cs[0].Label() + "|" + rest)| == |cs|
    ensures forall k :: 0 <= k < |cs| ==> SplitBars(cs[0].Label() + "|" + rest)[k] == cs[k].Label()
  {
    var pieces := SplitBars(cs[0].Label() + "|" + rest);
    SplitBarsAfterWord(cs[0].Label(), rest);
    forall k | 0 <= k < |cs|
      ensures pieces[k] == cs[k].Label()
    {
      if k > 0 {
        assert pieces[k] == SplitBars(rest)[k - 1];
        assert cs[1..][k - 1] == cs[k];
      }
    }
  }

  /** The list the general usage shows: the five words, in the order `run` tests them. */
  lemma CommandsAlternatives()
    ensures SplitBars(Alternatives(Commands)) == [VideoLabel, WebcamLabel, ListLabel, UnregisterLabel, UnregisterAllLabel]
  {
    FiveAlternatives(VideoRegistration, WebcamRegistration, Listing, Unregistration, FullUnregistration);
  }

  /** Five commands split back into their five words. */
  lemma FiveAlternatives(a: Command, b: Command, c: Command, d: Command, e: Command)
    ensures SplitBars(Alternatives([a, b, c, d, e])) == [a.Label(), b.Label(), c.Label(), d.Label(), e.Label()]
  {
    var cs := [a, b, c, d, e];
    var pieces := SplitBars(Alternatives(cs));
    assert |pieces| == 5;
    assert pieces[0] == a.Label() && pieces[1] == b.Label() && pieces[2] == c.Label();
    assert pieces[3] == d.Label() && pieces[4] == e.Label();
  }

  /** Where the three parts of `a + b + c` sit. */
  lemma Framing<T>(a: seq<T>, b: seq<T>, c: seq<T>)
    ensures var l := a + b + c;
      && l[..|a|] == a && l[|a|..|l| - |c|] == b && l[|l| - |c|..] == c
  {
    var l := a + b + c;
    assert l[..|a|] == a;
    assert l[|a|..|l| - |c|] == b;
  }

  /** Where the five parts of `a + b + c + d + e` sit. */
  lemma Framing5<T>(a: seq<T>, b: seq<T>, c: seq<T>, d: seq<T>, e: seq<T>)
    ensures var l := a + b + c + d + e;
      && |l| == |a| + |b| + |c| + |d| + |e|
      && l[..|a|] == a
      && l[|a|..|a| + |b|] == b
      && l[|a| + |b|..|a| + |b| + |c|] == c
      && l[|a| + |b| + |c|..|l| - |e|] == d
      && l[|l| - |e|..] == e
  {
    var l := a + b + c + d + e;
    var abc := a + b + c;
    assert l[..|abc|] == abc;
    assert abc[..|a|] == a && abc[|a|..|a| + |b|] == b && abc[|a| + |b|..] == c;
    assert l[|abc|..|l| - |e|] == d;
  }

  const UsageBanner: string := "Application for demoing the Affectiva face registration\n\nusage "
  const UsageOpen: string := " <"
  const UsageTail: string := "> ... \n"

  /**
   * What `run` prints for a missing or unknown sub-command: the banner, the
   * program name, then the words of all commands between "<" and ">".
   */
  function GeneralUsage(appName: string): (u: string)
    ensures |u| == |UsageBanner| + |appName| + |UsageOpen| + |Alternatives(Commands)| + |UsageTail|
    ensures u[..|UsageBanner|] == UsageBanner
    ensures u[|UsageBanner|..|UsageBanner| + |appName|] == appName
    ensures u[|UsageBanner| + |appName|..|UsageBanner| + |appName| + |UsageOpen|] == UsageOpen
    ensures u[|UsageBanner| + |appName| + |UsageOpen|..|u| - |UsageTail|] == Alternatives(Commands)
    ensures u[|u| - |UsageTail|..] == UsageTail
  {
    Framing5(UsageBanner, appName, UsageOpen, Alternatives(Commands), UsageTail);
    UsageBanner + appName + UsageOpen + Alternatives(Commands) + UsageTail
  }

  /** The sample rate the video session uses: `--sample_rate`, 0 (every frame) when absent. */
  function RateOf(o: Options): nat {
    if o.sampleRate.Some? then o.sampleRate.value else 0
  }

  /** The camera the webcam session opens: `--cid`, camera 0 when absent. */
  function CameraOf(o: Options): int {
    if o.cameraId.Some? then o.cameraId.value else 0
  }

  /**
   * The world outside the program: environment variables, the paths that
   * exist, the variable `validatePath(filename)` falls back on for the video
   * file, the registrar's answers and registered ids, the video file, the
   * webcams by index, and SIGINT before each loop test.
   */
  datatype World = World(env: map<string, string>, existing: set<string>, pathVariable: string,
                         answers: seq<RegistrationResult>, identities: seq<int>,
                         media: Video.Media, cameras: map<int, Camera>, signals: seq<bool>)

  /** The exceptions that leave `run`. */
  datatype RunError = BadDataDir(pathError: PathError) | Registration(registerError: RegisterError)

  /** What `run` did when it returned normally. */
  datatype Step = ShowedUsage | ShowedHelp | Ran(command: Command) | Registered(outcome: Outcome)

  class Application {
    const commandLine: SubCommandParser
    const console: Console
    const latch: Latch
    /** The caption of the options description built for the current command. */
    var options: string
    var dataDir: string
    var preview: bool
    var faceDb: FaceDb?

    constructor (argv: seq<string>, console: Console, latch: Latch)
      requires |argv| >= 1
      ensures fresh(commandLine) && commandLine.console == console && commandLine.appName == argv[0]
      ensures |argv| < 2 ==> commandLine.cmd == "" && commandLine.args == argv
      ensures |argv| >= 2 ==> commandLine.cmd == argv[1] && commandLine.args == argv[2..]
      ensures this.console == console && this.latch == latch
      ensures options == "" && dataDir == "" && !preview && faceDb == null
    {
      commandLine := new SubCommandParser(argv, console);
      this.console := console;
      this.latch := latch;
      options := "";
      dataDir := "";
      preview := false;
      faceDb := null;
    }

    /** `setCommonOptions`: the description of the options every command accepts, under its usage caption. */
    method SetCommonOptions(usage: string)
      modifies this`options
      ensures options == Caption(commandLine.appName, usage)
    {
      options := Caption(commandLine.appName, usage);
    }

    /**
     * `parse`: apply the gate of `process`; when it passes, take the options'
     * values, settle the data directory and build the `FaceDb` on it.
     */
    method Parse(requiredCount: int, o: Options, w: World)
      returns (r: Result<bool, PathError>)
      requires commandLine.console == console
      modifies this`dataDir, this`preview, this`faceDb, commandLine`required, console
      ensures commandLine.required == o.positionals
      ensures o.help || |o.positionals| < AsSize(requiredCount) ==>
              && r == Ok(false)
                && console.written == old(console.written) + [options + "\n"]
                && faceDb == old(faceDb) && dataDir == old(dataDir) && preview == old(preview)
      ensures var v := ValidatePath(if o.dataDir.Some? then o.dataDir.value else old(dataDir), DataDirVariable, w.env, w.existing);
              !o.help && |o.positionals| >= AsSize(requiredCount) ==>
                && console.written == old(console.written)
                && preview == o.preview
                && (v.Err? ==> r == Err(v.error) && faceDb == old(faceDb))
                && (v.Ok? ==>
                      && r == Ok(true) && dataDir == v.value
                      && faceDb != null && fresh(faceDb) && fresh(faceDb.registrar)
                      && faceDb.registrar.dataDir == v.value && faceDb.preview == o.preview
                      && faceDb.latch == latch && faceDb.console == console
                      && faceDb.registrar.answers == w.answers && faceDb.registrar.identities == w.identities
                      && faceDb.registrar.submissions == [] && faceDb.registrar.requests == []
                      && faceDb.title == "" && faceDb.shown == [])
    {
      var successful := commandLine.Process(options, requiredCount, o);
      if !successful {
        return Ok(false);
      }
      if o.dataDir.Some? {
        dataDir := o.dataDir.value;
      }
      preview := o.preview;
      var v := ValidatePath(dataDir, DataDirVariable, w.env, w.existing);
      if v.Err? {
        return Err(v.error);
      }
      dataDir := v.value;
      faceDb := new FaceDb(dataDir, preview, latch, console, w.answers, w.identities);
      return Ok(true);
    }

    /**
     * What carrying out `c` on a fresh `FaceDb` leaves behind, given the
     * positionals `p`, the options `o`, the flag `latched` and the output
     * `written` from before.
     */
    ghost predicate Performed(c: Command, p: seq<string>, o: Options, w: World, latched: bool,
                              written: seq<string>, r: Result<Step, RunError>)
      requires faceDb != null && |p| >= c.RequiredCount()
      reads this, faceDb, faceDb.registrar, console, latch
    {
      match c
      case VideoRegistration => VideoRegistered(Atoi(p[0]), p[1], RateOf(o), w, latched, written, r)
      case WebcamRegistration => WebcamRegistered(Atoi(p[0]), CameraOf(o), w, latched, written, r)
      case Listing =>
        && r == Ok(Ran(Listing))
        && console.written == written + [ListPrefix + JoinIds(w.identities) + "\n"]
        && faceDb.registrar.submissions == [] && faceDb.registrar.requests == []
      case Unregistration =>
        && r == Ok(Ran(Unregistration))
        && console.written == written + [UnregisteredPrefix + IntToString(Atoi(p[0])) + "\n"]
        && faceDb.registrar.submissions == [] && faceDb.registrar.requests == [UnregisterOne(Atoi(p[0]))]
      case FullUnregistration =>
        && r == Ok(Ran(FullUnregistration))
        && console.written == written + [ToUnregisterPrefix + JoinIds(w.identities) + "\n", AllUnregistered]
        && faceDb.registrar.submissions == [] && faceDb.registrar.requests == [UnregisterEvery]
    }

    /**
     * A video session for `identifier` on `file` sampled at `rate`: it runs
     * when the path is valid and the file opens, and its frames are all
     * submitted for `identifier`.
     */
    ghost predicate VideoRegistered(identifier: int, file: string, rate: nat, w: World, latched: bool,
                                    written: seq<string>, r: Result<Step, RunError>)
      requires faceDb != null
      reads this, faceDb, faceDb.registrar, console, latch
    {
      var v := ValidatePath(file, w.pathVariable, w.env, w.existing);
      var s := Session(latched, w.signals, w.answers, VideoFrames(rate, w.media), Initial, 0);
      && faceDb.registrar.requests == []
      && (r.Ok? <==> v.Ok? && Video.Extension(v.value) in Video.SupportedExtensions && w.media.opens)
      && (v.Err? ==> r == Err(Registration(BadPath(v.error))))
      && (r.Err? ==>
            && faceDb.registrar.submissions == [] && console.written == written
            && latch.raised == latched && faceDb.shown == [])
      && (r.Ok? ==>
            && r.value == Registered(s) && faceDb.title == v.value
            && latch.raised == (s.ending == Interrupted)
            && faceDb.registrar.submissions == FullFrames(identifier, w.media.width, w.media.height, s.frames)
            && console.written == written + [VideoBanner, Display(Initial)] + ShownLines(w.answers, s.frames) + [SessionEnd]
            && faceDb.shown == Copies(v.value, Previews(faceDb.preview, w.answers, s.frames)))
    }

    /**
     * A webcam session for `identifier` on camera `camera`: unavailable
     * without that camera, an error when the camera stops delivering, and
     * its frames are all submitted for `identifier`.
     */
    ghost predicate WebcamRegistered(identifier: int, camera: int, w: World, latched: bool,
                                     written: seq<string>, r: Result<Step, RunError>)
      requires faceDb != null
      reads this, faceDb, faceDb.registrar, console, latch
    {
      var id := camera + CapAny;
      && faceDb.registrar.requests == [] && faceDb.title == "Live"
      && (id !in w.cameras ==>
            && r == Err(Registration(WebcamUnavailable)) && faceDb.registrar.submissions == []
            && console.written == written && latch.raised == latched && faceDb.shown == [])
      && (id in w.cameras ==>
            var cam := w.cameras[id];
            var s := Session(latched, w.signals, w.answers, cam.frames, Initial, 0);
            && (r == Err(Registration(WebcamReadFailed)) <==> s.ending == SourceEnded)
            && (r.Ok? ==> r.value == Registered(s))
            && latch.raised == (s.ending == Interrupted)
            && faceDb.registrar.submissions == FullFrames(identifier, cam.width, cam.height, s.frames)
            && console.written
               == written + [WebcamBanner, Display(Initial)] + ShownLines(w.answers, s.frames)
                  + (if s.ending == SourceEnded then [] else [SessionEnd])
            && faceDb.shown == Copies("Live", Previews(faceDb.preview, w.answers, s.frames)))
    }

    /** `videoRegister` on the new `FaceDb`, its exception turned into the error of `run`. */
    method RegisterVideo(identifier: int, file: string, rate: nat, w: World) returns (r: Result<Step, RunError>)
      requires faceDb != null && faceDb.latch == latch && faceDb.console == console
      requires faceDb.registrar.answers == w.answers
      requires faceDb.registrar.submissions == [] && faceDb.registrar.requests == [] && faceDb.shown == []
      modifies faceDb, faceDb.registrar, console, latch
      ensures VideoRegistered(identifier, file, rate, w, old(latch.raised), old(console.written), r)
    {
      var e := faceDb.VideoRegister(identifier, file, rate, w.pathVariable, w.env, w.existing, w.media, w.signals);
      r := if e.Ok? then Ok(Registered(e.value)) else Err(Registration(e.error));
    }

    /** `webcamRegister` on the new `FaceDb`, its exception turned into the error of `run`. */
    method RegisterWebcam(identifier: int, camera: int, w: World) returns (r: Result<Step, RunError>)
      requires faceDb != null && faceDb.latch == latch && faceDb.console == console
      requires faceDb.registrar.answers == w.answers
      requires faceDb.registrar.submissions == [] && faceDb.registrar.requests == [] && faceDb.shown == []
      modifies faceDb, faceDb.registrar, console, latch
      ensures WebcamRegistered(identifier, camera, w, old(latch.raised), old(console.written), r)
    {
      var e := faceDb.WebcamRegister(identifier, camera, w.cameras, w.signals);
      r := if e.Ok? then Ok(Registered(e.value)) else Err(Registration(e.error));
    }

    /** Carry out `c` on the `FaceDb` that `parse` has just built. */
    method Perform(c: Command, o: Options, w: World) returns (r: Result<Step, RunError>)
      requires faceDb != null && faceDb.latch == latch && faceDb.console == console
      requires |commandLine.required| >= c.RequiredCount()
      requires faceDb.registrar.answers == w.answers && faceDb.registrar.identities == w.identities
      requires faceDb.registrar.submissions == [] && faceDb.registrar.requests == [] && faceDb.shown == []
      modifies faceDb, faceDb.registrar, console, latch
      ensures Performed(c, commandLine.required, o, w, old(latch.raised), old(console.written), r)
    {
      var p := commandLine.required;
      match c
      case VideoRegistration =>
        r := RegisterVideo(Atoi(p[0]), p[1], RateOf(o), w);
      case WebcamRegistration =>
        r := RegisterWebcam(Atoi(p[0]), CameraOf(o), w);
      case Listing =>
        faceDb.List();
        r := Ok(Ran(Listing));
      case Unregistration =>
        faceDb.Unregister(Atoi(p[0]));
        r := Ok(Ran(Unregistration));
      case FullUnregistration =>
        faceDb.UnregisterAll();
        r := Ok(Ran(FullUnregistration));
    }

    /**
     * What handling the known command `c` leaves behind: its options
     * description is built, the arguments `o` pass its gate or its usage is
     * printed, and only then is the data directory settled and, if valid,
     * the command carried out on a new `FaceDb`. `dataDir`, `db`, `latched`
     * and `written` are the directory, database, flag and output from before.
     */
    ghost predicate Dispatched(c: Command, o: Options, w: World, dataDir: string, db: FaceDb?, latched: bool,
                               written: seq<string>, r: Result<Step, RunError>)
      reads this, commandLine, console, latch, faceDb, if faceDb != null then {faceDb.registrar} else {}
    {
      var v := ValidatePath(if o.dataDir.Some? then o.dataDir.value else dataDir, DataDirVariable, w.env, w.existing);
      && options == Caption(commandLine.appName, c.Usage())
      && commandLine.required == o.positionals
      && (o.help || |o.positionals| < c.RequiredCount() ==>
            && r == Ok(ShowedHelp) && faceDb == db
            && console.written == written + [options + "\n"])
      && (!o.help && |o.positionals| >= c.RequiredCount() && v.Err? ==>
            && r == Err(BadDataDir(v.error)) && faceDb == db
            && console.written == written)
      && (!o.help && |o.positionals| >= c.RequiredCount() && v.Ok? ==>
            && faceDb != null && faceDb.registrar.dataDir == v.value && faceDb.preview == o.preview
            && Performed(c, o.positionals, o, w, latched, written, r))
    }

    /** One branch of `run`: the options of `c`, the parse gate, and `c` itself on the new `FaceDb`. */
    method Handle(c: Command, o: Options, w: World) returns (r: Result<Step, RunError>)
      requires commandLine.console == console
      modifies this, commandLine`required, console, latch
      ensures Dispatched(c, o, w, old(dataDir), old(faceDb), old(latch.raised), old(console.written), r)
      ensures faceDb != old(faceDb) ==> faceDb != null && fresh(faceDb) && fresh(faceDb.registrar)
    {
      SetCommonOptions(c.Usage());
      var parsed := Parse(c.RequiredCount(), o, w);
      if parsed.Err? {
        return Err(BadDataDir(parsed.error));
      }
      if !parsed.value {
        return Ok(ShowedHelp);
      }
      r := Perform(c, o, w);
    }

    /**
     * `run`: dispatch on the sub-command. An unknown one prints the general
     * usage and touches no `FaceDb`; a known one is handled by its branch.
     */
    method Run(o: Options, w: World) returns (r: Result<Step, RunError>)
      requires commandLine.console == console
      modifies this, commandLine`required, console, latch
      ensures CommandOf(commandLine.cmd).None? ==>
                && r == Ok(ShowedUsage)
                && console.written == old(console.written) + [GeneralUsage(commandLine.appName)]
                && faceDb == old(faceDb) && commandLine.required == old(commandLine.required)
      ensures CommandOf(commandLine.cmd).Some? ==>
                Dispatched(CommandOf(commandLine.cmd).value, o, w, old(dataDir), old(faceDb), old(latch.raised),
                           old(console.written), r)
      ensures faceDb != old(faceDb) ==> faceDb != null && fresh(faceDb) && fresh(faceDb.registrar)
    {
      var c := CommandOf(commandLine.cmd);
      if c.None? {
        console.Write(GeneralUsage(commandLine.appName));
        return Ok(ShowedUsage);
      }
      r := Handle(c.value, o, w);
    }
  }
}
