/**
 * The paced frame reader (`VideoReader`). The OpenCV capture is an input: a
 * sequence of `Attempt`s, one per grab/retrieve/position query, consumed in
 * order; once it is used up, every further attempt fails and reports
 * timestamp 0. The capture's position (`CV_CAP_PROP_POS_MSEC`) is the
 * timestamp of the most recent attempt, 0 before the first.
 */
module Video {
  import opened Wrappers
  import Progress

  /** One `grab()`, `retrieve()` and position query of the capture. */
  datatype Attempt = Attempt(grabbed: bool, retrieved: bool, timestamp: int) {
    predicate Decoded() {
      grabbed && retrieved
    }
  }

  const EndOfStream := Attempt(false, false, 0)

  /** Retries after a failed first attempt. */
  const MaxAttempts := 2

  /** The `i`-th attempt the capture will answer with. */
  function At(s: seq<Attempt>, i: nat): (a: Attempt)
    ensures a.Decoded() ==> i < |s|
  {
    if i < |s| then s[i] else EndOfStream
  }

  /** The capture after `k` more attempts. */
  function Drop(s: seq<Attempt>, k: nat): (r: seq<Attempt>)
    ensures |r| == if k <= |s| then |s| - k else 0
  {
    if k <= |s| then s[k..] else []
  }

  // ---------------------------------------------------------------------
  // GetFrameData: one frame with a bounded retry
  // ---------------------------------------------------------------------

  /** The outcome of `GetFrameData`: success, the timestamp it reports, and how many grabs it made. */
  datatype Decoded = Decoded(ok: bool, timestamp: int, grabs: nat)

  /**
   * `GetFrameData` on a capture whose next attempts are `s` and whose position
   * before the first grab is `prev`.
   */
  function FrameData(prev: int, s: seq<Attempt>): (d: Decoded)
    // one attempt, plus at most MaxAttempts retries
    ensures 1 <= d.grabs <= MaxAttempts + 1
    // a retry happens only after a failed grab or retrieve
    ensures forall j :: 0 <= j < d.grabs - 1 ==> !At(s, j).Decoded()
    ensures d.grabs <= MaxAttempts ==> At(s, d.grabs - 1).Decoded()
    // the reported timestamp is the last position read
    ensures d.timestamp == At(s, d.grabs - 1).timestamp
    // success needs a decoded frame; a frame found only on a retry must also have advanced
    ensures d.ok <==> At(s, d.grabs - 1).Decoded() && (d.grabs == 1 || d.timestamp > prev)
    ensures d.ok ==> d.grabs <= |s|
  {
    if At(s, 0).Decoded() then Decoded(true, At(s, 0).timestamp, 1)
    else if At(s, 1).Decoded() then Decoded(At(s, 1).timestamp > prev, At(s, 1).timestamp, 2)
    else Decoded(At(s, 2).Decoded() && At(s, 2).timestamp > prev, At(s, 2).timestamp, 3)
  }

  // ---------------------------------------------------------------------
  // GetFrame: decode and discard until the sampling gate passes
  // ---------------------------------------------------------------------

  /**
   * The condition under which `GetFrame` discards a decoded frame and decodes
   * another: sampling is on, and a frame after time 0 lies less than one
   * period after the last frame returned.
   */
  predicate Discard(rate: nat, last: int, ts: int)
    ensures rate == 0 || ts <= 0 ==> !Discard(rate, last, ts)
    ensures rate > 0 && ts > 0 ==> (Discard(rate, last, ts) <==> ts < last + 1000 / rate)
  {
    rate > 0 && ts > 0 && ts - last < 1000 / rate
  }

  /**
   * The outcome of `GetFrame`: success, the timestamp returned, the
   * timestamps of every frame decoded during the call (discarded ones first,
   * the returned one last), and what is left of the capture.
   */
  datatype Paced = Paced(ok: bool, timestamp: int, decoded: seq<int>, rest: seq<Attempt>)

  /** `GetFrame` with sampling rate `rate`, last emitted timestamp `last` and capture position `pos`. */
  function Pace(rate: nat, last: int, pos: int, s: seq<Attempt>): (p: Paced)
    ensures |p.rest| <= |s|
    ensures p.ok ==> |p.rest| < |s|
    ensures p.ok ==> |p.decoded| >= 1 && p.decoded[|p.decoded| - 1] == p.timestamp
    decreases |s|
  {
    var d := FrameData(pos, s);
    var rest := Drop(s, d.grabs);
    if d.ok && Discard(rate, last, d.timestamp) then
      var q := Pace(rate, last, d.timestamp, rest);
      Paced(q.ok, q.timestamp, [d.timestamp] + q.decoded, q.rest)
    else
      Paced(d.ok, d.timestamp, if d.ok then [d.timestamp] else [], rest)
  }

  /**
   * What is still to come of a `GetFrame` call once a decode has produced
   * `ok` and `ts`, with `seen` the frames decoded so far in the call.
   */
  function Resume(rate: nat, last: int, ok: bool, ts: int, rest: seq<Attempt>, seen: seq<int>): Paced {
    if ok && Discard(rate, last, ts) then
      var q := Pace(rate, last, ts, rest);
      Paced(q.ok, q.timestamp, seen + q.decoded, q.rest)
    else
      Paced(ok, ts, seen, rest)
  }

  /** `Pace` is one decode followed by `Resume`. */
  lemma PaceIsResume(rate: nat, last: int, pos: int, s: seq<Attempt>)
    ensures var d := FrameData(pos, s);
            Pace(rate, last, pos, s)
            == Resume(rate, last, d.ok, d.timestamp, Drop(s, d.grabs), if d.ok then [d.timestamp] else [])
  {
  }

  /** A discarded frame is followed by one more decode. */
  lemma ResumeStep(rate: nat, last: int, ts: int, rest: seq<Attempt>, seen: seq<int>)
    requires Discard(rate, last, ts)
    ensures var d := FrameData(ts, rest);
            Resume(rate, last, true, ts, rest, seen)
            == Resume(rate, last, d.ok, d.timestamp, Drop(rest, d.grabs),
                      seen + (if d.ok then [d.timestamp] else []))
  {
    var d := FrameData(ts, rest);
    PaceIsResume(rate, last, ts, rest);
    if d.ok && Discard(rate, last, d.timestamp) {
      var q := Pace(rate, last, d.timestamp, Drop(rest, d.grabs));
      assert seen + ([d.timestamp] + q.decoded) == seen + [d.timestamp] + q.decoded;
    }
  }

  /** The timestamps returned by successive `GetFrame` calls until the first `false`. */
  function Emitted(rate: nat, last: int, pos: int, s: seq<Attempt>): (e: seq<int>)
    // every returned frame uses up at least one attempt of the capture
    ensures |e| <= |s|
    decreases |s|
  {
    var p := Pace(rate, last, pos, s);
    if p.ok then [p.timestamp] + Emitted(rate, p.timestamp, p.timestamp, p.rest) else []
  }

  // ---------------------------------------------------------------------
  // Seeding the last emitted timestamp
  // ---------------------------------------------------------------------

  /**
   * The seed of `last_timestamp_ms` the constructor intends: -1 without
   * sampling, otherwise one sampling period before 0.
   */
  function InitialLastTimestamp(rate: nat): (t: int)
    ensures rate == 0 ==> t == -1
    ensures rate > 0 ==> t + 1000 / rate == 0
  {
    if rate == 0 then -1 else 0 - 1000 / rate
  }

  /**
   * The seed as the C++ expression computes it: `rate` is an `unsigned int`,
   * so both arms of the conditional are converted to `unsigned int` and the
   * subtraction wraps modulo 2^32; the result is then stored unchanged in a
   * 64-bit signed timestamp.
   */
  function InitialLastTimestampAsWritten(rate: nat): (t: int)
    requires rate < 0x1_0000_0000
    ensures 0 <= t < 0x1_0000_0000
    // -1 wraps to the largest `unsigned int`
    ensures rate == 0 ==> t == 0xFFFF_FFFF
    // a positive period wraps to 2^32 minus the period
    ensures 0 < rate <= 1000 ==> t == 0x1_0000_0000 - 1000 / rate
    // above 1000 frames per second the period is 0 and nothing wraps
    ensures rate > 1000 ==> t == 0
  {
    Period(rate);
    Wraps(if rate == 0 then 1 else 1000 / rate);
    (if rate == 0 then -1 else 0 - 1000 / rate) % 0x1_0000_0000
  }

  /** The sampling period in milliseconds is at most a second, and at least 1 ms up to 1000 frames per second. */
  lemma Period(rate: nat)
    ensures rate > 0 ==> 1000 / rate <= 1000
    ensures 0 < rate <= 1000 ==> 1 <= 1000 / rate
    ensures rate > 1000 ==> 1000 / rate == 0
  {
  }

  /** A small negative number wraps to 2^32 minus its magnitude. */
  lemma Wraps(d: int)
    requires 0 <= d < 0x1_0000_0000
    ensures (0 - d) % 0x1_0000_0000 == (if d == 0 then 0 else 0x1_0000_0000 - d)
  {
  }

  // ---------------------------------------------------------------------
  // Supported containers
  // ---------------------------------------------------------------------

  const SupportedExtensions: set<string> := {".avi", ".mov", ".flv", ".webm", ".wmv", ".mp4"}

  /** The last component of a `/`-separated path (empty when the path ends in `/`). */
  function FileName(p: string): (f: string)
    ensures |f| <= |p| && f == p[|p| - |f|..]
    ensures forall i :: 0 <= i < |f| ==> f[i] != '/'
    ensures |f| < |p| ==> p[|p| - |f| - 1] == '/'
  {
    if p == [] || p[|p| - 1] == '/' then [] else FileName(p[..|p| - 1]) + [p[|p| - 1]]
  }

  /** The suffix of `f` that starts at its last dot, or empty when `f` has none. */
  function FromLastDot(f: string): (e: string)
    ensures |e| <= |f| && e == f[|f| - |e|..]
    ensures e != [] ==> e[0] == '.' && forall i :: 1 <= i < |e| ==> e[i] != '.'
    ensures e == [] ==> forall i :: 0 <= i < |f| ==> f[i] != '.'
  {
    if f == [] then []
    else if f[|f| - 1] == '.' then "."
    else
      var r := FromLastDot(f[..|f| - 1]);
      if r == [] then [] else r + [f[|f| - 1]]
  }

  /** `boost::filesystem::path::extension()`: from the last dot of the file name, dot included. */
  function Extension(p: string): (e: string)
    // a suffix of the path ...
    ensures |e| <= |p| && e == p[|p| - |e|..]
    // ... that is empty, or one dot followed by neither a dot nor a separator
    ensures e != [] ==> e[0] == '.' && forall i :: 1 <= i < |e| ==> e[i] != '.' && e[i] != '/'
    // it runs from the file name's last dot: a suffix of the file name, ...
    ensures |e| <= |FileName(p)| && e == FileName(p)[|FileName(p)| - |e|..]
    // ... empty only for ".", ".." or a file name without a dot
    ensures e == [] ==> FileName(p) == "." || FileName(p) == ".."
                        || forall i :: 0 <= i < |FileName(p)| ==> FileName(p)[i] != '.'
    // "." and ".." have none
    ensures FileName(p) == "." || FileName(p) == ".." ==> e == []
  {
    var f := FileName(p);
    if f == "." || f == ".." then "" else FromLastDot(f)
  }

  lemma {:induction false} FileNameAppend(stem: string, e: string)
    requires e != [] && forall i :: 0 <= i < |e| ==> e[i] != '/'
    ensures FileName(stem + e) == FileName(stem) + e
    decreases |e|
  {
    var p := stem + e;
    assert p[|p| - 1] == e[|e| - 1];
    assert p[..|p| - 1] == stem + e[..|e| - 1];
    if |e| == 1 {
      assert stem + e[..0] == stem;
    } else {
      FileNameAppend(stem, e[..|e| - 1]);
      assert e[..|e| - 1] + [e[|e| - 1]] == e;
    }
  }

  lemma {:induction false} FromLastDotAppend(f: string, e: string)
    requires e != [] && e[0] == '.' && forall i :: 1 <= i < |e| ==> e[i] != '.'
    ensures FromLastDot(f + e) == e
    decreases |e|
  {
    var p := f + e;
    assert p[|p| - 1] == e[|e| - 1];
    if |e| > 1 {
      assert p[..|p| - 1] == f + e[..|e| - 1];
      FromLastDotAppend(f, e[..|e| - 1]);
      assert e[..|e| - 1] + [e[|e| - 1]] == e;
    }
  }

  lemma SupportedShape(ext: string)
    requires ext in SupportedExtensions
    ensures |ext| >= 4 && ext[0] == '.'
    ensures forall i :: 0 <= i < |ext| ==> ext[i] != '/'
    ensures forall i :: 1 <= i < |ext| ==> ext[i] != '.'
  {
    if ext == ".avi" {
    } else if ext == ".mov" {
    } else if ext == ".flv" {
    } else if ext == ".webm" {
    } else if ext == ".wmv" {
    } else {
      assert ext == ".mp4";
    }
  }

  /** Any path ending in a supported extension is recognised, whatever precedes it. */
  lemma ExtensionOfSupported(stem: string, ext: string)
    requires ext in SupportedExtensions
    ensures Extension(stem + ext) == ext
  {
    SupportedShape(ext);
    FileNameAppend(stem, ext);
    var f := FileName(stem);
    var name := FileName(stem + ext);
    assert name == f + ext;
    assert |name| >= 4;
    assert name != "." && name != "..";
    FromLastDotAppend(f, ext);
  }

  // ---------------------------------------------------------------------
  // The reader
  // ---------------------------------------------------------------------

  /** `Emitted` is the next `Pace` result followed by what comes after it. */
  lemma EmittedStep(rate: nat, last: int, pos: int, s: seq<Attempt>)
    ensures var p := Pace(rate, last, pos, s);
            Emitted(rate, last, pos, s) == if p.ok then [p.timestamp] + Emitted(rate, p.timestamp, p.timestamp, p.rest) else []
  {
  }

  /** What opening a file yields: whether it opens, its attempts, its frame-count property and frame size. */
  datatype Media = Media(opens: bool, attempts: seq<Attempt>, frameCount: nat, width: nat, height: nat)

  datatype OpenError = UnsupportedExtension(ext: string) | CannotOpen(path: string) {
    function Message(): string {
      match this
      case UnsupportedExtension(e) => "Unsupported file extension: " + e
      case CannotOpen(p) => "Error opening video/image file: " + p
    }
  }

  class VideoReader {
    const samplingFrameRate: nat
    var lastTimestampMs: int
    var currentFrame: nat
    const totalFrames: nat
    const width: nat
    const height: nat
    /** The capture: attempts it has not answered yet, and its position. */
    var pending: seq<Attempt>
    var position: int
    const progress: Progress.ProgressBar

    /** The progress bar counts the file's frames and keeps its default frequency. */
    ghost predicate Valid()
      reads this, progress
    {
      progress.Valid() && progress.n == totalFrames && progress.frequencyUpdate == totalFrames
    }

    /** The timestamps the coming `GetFrame` calls return, up to the first `false`. */
    ghost function Upcoming(): seq<int>
      reads this
    {
      Emitted(samplingFrameRate, lastTimestampMs, position, pending)
    }

    /** The part of the constructor that runs once the file is known to be supported and open. */
    constructor (rate: nat, media: Media)
      ensures Valid() && fresh(progress)
      ensures samplingFrameRate == rate && lastTimestampMs == InitialLastTimestamp(rate)
      ensures currentFrame == 0 && pending == media.attempts && position == 0
      ensures totalFrames == media.frameCount && width == media.width && height == media.height
      ensures progress.drawn == [] && progress.errors == []
      ensures progress.description == "Video processed:"
    {
      samplingFrameRate := rate;
      lastTimestampMs := InitialLastTimestamp(rate);
      currentFrame := 0;
      totalFrames := media.frameCount;
      width, height := media.width, media.height;
      pending := media.attempts;
      position := 0;
      progress := new Progress.ProgressBar(media.frameCount, "Video processed:");
    }

    /** `grab()`, `retrieve()` and the position query: the capture answers with its next attempt. */
    method Grab() returns (a: Attempt)
      modifies this`pending, this`position
      ensures a == At(old(pending), 0)
      ensures pending == Drop(old(pending), 1) && position == a.timestamp
    {
      a := At(pending, 0);
      pending := Drop(pending, 1);
      position := a.timestamp;
    }

    method GetFrameData() returns (ok: bool, ts: int)
      modifies this`pending, this`position
      ensures var d := FrameData(old(position), old(pending));
              ok == d.ok && ts == d.timestamp && pending == Drop(old(pending), d.grabs)
      ensures position == ts
    {
      ghost var s := pending;
      var prev := position;
      var a := Grab();
      var frameFound, frameRetrieved := a.grabbed, a.retrieved;
      ts := a.timestamp;
      var nAttempts := 0;
      ghost var grabs := 1;
      while true
        invariant 0 <= nAttempts <= MaxAttempts && grabs == nAttempts + 1
        invariant pending == Drop(s, grabs) && position == ts
        invariant frameFound == At(s, grabs - 1).grabbed && frameRetrieved == At(s, grabs - 1).retrieved
        invariant ts == At(s, grabs - 1).timestamp
        invariant forall j :: 0 <= j < grabs - 1 ==> !At(s, j).Decoded()
        decreases MaxAttempts - nAttempts
      {
        if frameFound && frameRetrieved {
          break;
        }
        // n_attempts++ < MAX_ATTEMPTS: the counter moves even when the test fails
        var retry := nAttempts < MaxAttempts;
        nAttempts := nAttempts + 1;
        if !retry {
          break;
        }
        assert Drop(s, grabs + 1) == Drop(Drop(s, grabs), 1);
        a := Grab();
        frameFound, frameRetrieved := a.grabbed, a.retrieved;
        ts := a.timestamp;
        grabs := grabs + 1;
      }
      if frameFound && frameRetrieved && nAttempts > 0 {
        if ts <= prev {
          frameFound := false;
        }
      }
      ok := frameFound && frameRetrieved;
    }

    /**
     * The decode-and-discard loop of `GetFrame`: decode frames until one
     * passes the sampling gate or decoding fails.
     */
    method DecodeSampled() returns (ok: bool, ts: int)
      modifies this`currentFrame, this`pending, this`position
      ensures var p := Pace(samplingFrameRate, lastTimestampMs, old(position), old(pending));
              && ok == p.ok && ts == p.timestamp && pending == p.rest
              && currentFrame == old(currentFrame) + |p.decoded|
      ensures position == ts
    {
      ghost var s0, pos0, frame0 := pending, position, currentFrame;
      var last := lastTimestampMs;
      PaceIsResume(samplingFrameRate, last, pos0, s0);
      ok, ts := GetFrameData();
      ghost var seen := if ok then [ts] else [];
      if ok {
        currentFrame := currentFrame + 1;
      }
      while Discard(samplingFrameRate, last, ts) && ok
        invariant position == ts
        invariant Pace(samplingFrameRate, last, pos0, s0)
                  == Resume(samplingFrameRate, last, ok, ts, pending, seen)
        invariant currentFrame == frame0 + |seen|
        decreases |pending| + (if ok then 1 else 0)
      {
        ResumeStep(samplingFrameRate, last, ts, pending, seen);
        ok, ts := GetFrameData();
        if ok {
          seen := seen + [ts];
          currentFrame := currentFrame + 1;
        }
      }
    }

    /**
     * `GetFrame`: the next frame that passes the sampling gate, which becomes
     * the last emitted one; the progress bar advances to the frame count.
     */
    method GetFrame() returns (ok: bool, ts: int)
      requires Valid()
      modifies this`lastTimestampMs, this`currentFrame, this`pending, this`position, progress`drawn, progress`errors
      ensures Valid()
      ensures var p := Pace(samplingFrameRate, old(lastTimestampMs), old(position), old(pending));
              && ok == p.ok && ts == p.timestamp && pending == p.rest
              && currentFrame == old(currentFrame) + |p.decoded|
      ensures lastTimestampMs == ts && position == ts
      ensures if ok then old(Upcoming()) == [ts] + Upcoming() else old(Upcoming()) == []
      // the bar keeps its default frequency, so every frame in range is drawn
      ensures progress.drawn == old(progress.drawn) + (if currentFrame <= totalFrames then [currentFrame] else [])
      ensures progress.errors == old(progress.errors)
                + (if currentFrame > totalFrames then [Progress.OutOfBoundsMessage(currentFrame, totalFrames)] else [])
    {
      EmittedStep(samplingFrameRate, lastTimestampMs, position, pending);
      ok, ts := DecodeSampled();
      lastTimestampMs := ts;
      if currentFrame <= totalFrames {
        Progress.DefaultFrequencyDrawsAll(totalFrames, currentFrame);
      }
      progress.Progressed(currentFrame);
    }
  }

  /** The constructor: check the extension, open the file, then build the reader. */
  method Open(path: string, rate: nat, media: Media) returns (r: Result<VideoReader, OpenError>)
    ensures Extension(path) !in SupportedExtensions ==> r == Err(UnsupportedExtension(Extension(path)))
    ensures Extension(path) in SupportedExtensions && !media.opens ==> r == Err(CannotOpen(path))
    ensures Extension(path) in SupportedExtensions && media.opens ==> r.Ok?
    ensures r.Ok? ==> var v := r.value;
              && fresh(v) && fresh(v.progress) && v.Valid()
              && v.samplingFrameRate == rate && v.lastTimestampMs == InitialLastTimestamp(rate)
              && v.currentFrame == 0 && v.pending == media.attempts && v.position == 0
              && v.totalFrames == media.frameCount && v.width == media.width && v.height == media.height
              && v.progress.drawn == [] && v.progress.errors == []
  {
    var ext := Extension(path);
    if ext !in SupportedExtensions {
      return Err(UnsupportedExtension(ext));
    }
    if !media.opens {
      return Err(CannotOpen(path));
    }
    var reader := new VideoReader(rate, media);
    return Ok(reader);
  }
}
