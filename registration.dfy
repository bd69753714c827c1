/**
 * The values the face-registration demo works with: the registrar's answer
 * for one frame, the one-line score display, the list of registered ids, and
 * the rule by which a registration session stops.
 */
module FaceRegistration {
  import opened Text

  // ---------------------------------------------------------------------
  // Registrar answers
  // ---------------------------------------------------------------------

  /** A head pose the registrar would still like to see. */
  datatype Orientation = Center | Up | Down | Left | Right {
    /** The enumerator's value, in declaration order. */
    function Ordinal(): (k: nat)
      ensures k < 5
    {
      match this
      case Center => 0
      case Up => 1
      case Down => 2
      case Left => 3
      case Right => 4
    }

    /** The letter `showResult` writes for this pose: the poses' letters, in slot order, spell `Glyphs`. */
    function Glyph(): (c: char)
      ensures c == Glyphs[Ordinal()]
    {
      match this
      case Center => 'c'
      case Up => 'u'
      case Down => 'd'
      case Left => 'l'
      case Right => 'r'
    }
  }

  /** The pose letters in slot order: center, up, down, left, right. */
  const Glyphs: string := "cudlr"

  /** `FaceRegistrationResult`: whether a face was found, the score so far, and the poses still wanted. */
  datatype RegistrationResult = RegistrationResult(faceFound: bool, score: int, hints: seq<Orientation>)

  /** The result a session starts from: score 0, no face, no hints. */
  const Initial := RegistrationResult(false, 0, [])

  /** The registrar's `i`-th answer; once the given answers run out it finds no face. */
  function AnswerAt(answers: seq<RegistrationResult>, i: nat): RegistrationResult {
    if i < |answers| then answers[i] else Initial
  }

  /** The answers still to come once `n` have been given. */
  function Remaining(answers: seq<RegistrationResult>, n: nat): seq<RegistrationResult> {
    if n < |answers| then answers[n..] else []
  }

  // ---------------------------------------------------------------------
  // The score display
  // ---------------------------------------------------------------------

  /** The hint buffer before any pose is written: "Hint:" and six spaces. */
  const BlankHints: string := "Hint:      "

  /** Index of the slot a pose's letter goes to. */
  function Slot(o: Orientation): (k: nat)
    ensures 6 <= k < |BlankHints|
  {
    6 + o.Ordinal()
  }

  /**
   * What `showResult` makes of a list of hints: the blank buffer, and in
   * each pose's slot that pose's letter when it is hinted, a space otherwise.
   */
  ghost predicate ShowsHints(h: string, hints: seq<Orientation>) {
    && |h| == |BlankHints|
    && h[..6] == BlankHints[..6]
    && forall o: Orientation {:trigger Slot(o)} :: h[Slot(o)] == if o in hints then o.Glyph() else ' '
  }

  /**
   * The hint buffer after `showResult` has written each hint's letter into
   * its slot, in order.
   */
  function HintText(hints: seq<Orientation>): (h: string)
    ensures ShowsHints(h, hints)
  {
    if hints == [] then BlankHints
    else
      var o := hints[|hints| - 1];
      var h := HintText(hints[..|hints| - 1]);
      assert forall p: Orientation :: p in hints <==> p in hints[..|hints| - 1] || p == o;
      h[Slot(o) := o.Glyph()]
  }

  /** What `showResult` writes before the score. */
  const ScorePrefix: string := "\rScore="

  /** `line` is `ScorePrefix`, then `field`, a blank, and the hint buffer `h`. */
  ghost predicate ScoreLaidOut(line: string, field: string, h: string) {
    && |line| == |ScorePrefix| + |field| + 1 + |h|
    && line[..|ScorePrefix|] == ScorePrefix
    && line[|ScorePrefix|..|line| - |h| - 1] == field
    && line[|line| - |h| - 1] == ' '
    && line[|line| - |h|..] == h
  }

  /** The score line `showResult` writes: `ScorePrefix`, the score right-aligned in 3 columns, a blank, the hints. */
  function ScoreLine(score: int, h: string): (line: string)
    // the score, right-aligned in a field of at least three columns, between the prefix and the blank
    ensures ScoreLaidOut(line, PadLeft(IntToString(score), 3), h)
    ensures |line| >= |ScorePrefix| + 4 + |h|
  {
    var field := PadLeft(IntToString(score), 3);
    Layout(ScorePrefix, field, ' ', h);
    ScorePrefix + (field + ([' '] + h))
  }

  /** Where the four parts of `a + (b + ([c] + h))` sit. */
  lemma Layout<T>(a: seq<T>, b: seq<T>, c: T, h: seq<T>)
    ensures var l := a + (b + ([c] + h));
      && |l| == |a| + |b| + 1 + |h|
      && l[..|a|] == a
      && l[|a|..|l| - |h| - 1] == b
      && l[|l| - |h| - 1] == c
      && l[|l| - |h|..] == h
  {
    var l := a + (b + ([c] + h));
    assert l[|a|..] == b + ([c] + h);
    assert (b + ([c] + h))[|b|..] == [c] + h;
  }

  /** The number after `ScorePrefix` reads back, through `atoi`, as the score. */
  lemma ScoreLineReadsBack(score: int, h: string)
    ensures Atoi(ScoreLine(score, h)[|ScorePrefix|..]) == score
  {
    var rest := PadLeft(IntToString(score), 3) + ([' '] + h);
    assert ScoreLine(score, h)[|ScorePrefix|..] == rest;
    AtoiOfPadded(score, 3, [' '] + h);
  }

  /**
   * Everything `showResult` writes for one result: the score field, a blank,
   * and the hint buffer showing the result's hints.
   */
  function Display(r: RegistrationResult): string {
    ScoreLine(r.score, HintText(r.hints))
  }

  /** The score line of a result: its score right-aligned in the field, then the hint buffer, which shows its hints. */
  lemma DisplayLaidOut(r: RegistrationResult)
    ensures ScoreLaidOut(Display(r), PadLeft(IntToString(r.score), 3), HintText(r.hints))
    ensures ShowsHints(HintText(r.hints), r.hints)
  {
  }

  /** The lines the first `n` answers put on the console: one per answer that found a face. */
  function ShownLines(answers: seq<RegistrationResult>, n: nat): (lines: seq<string>)
    ensures |lines| == FacesFound(answers, n)
  {
    if n == 0 then []
    else
      var r := AnswerAt(answers, n - 1);
      ShownLines(answers, n - 1) + (if r.faceFound then [Display(r)] else [])
  }

  /** How many of the first `n` answers found a face. */
  function FacesFound(answers: seq<RegistrationResult>, n: nat): (k: nat)
    ensures k <= n
  {
    if n == 0 then 0 else FacesFound(answers, n - 1) + (if AnswerAt(answers, n - 1).faceFound then 1 else 0)
  }

  // ---------------------------------------------------------------------
  // The list of registered ids
  // ---------------------------------------------------------------------

  /** What `registeredIds` puts between two ids. */
  const Separator: string := " + "

  /** The ids in order, each in decimal, with `Separator` between neighbours. */
  function JoinIds(ids: seq<int>): (s: string)
    ensures s == "" <==> ids == []
    ensures ids != [] ==> s[0] != ' ' && s[|s| - 1] != ' '
  {
    if |ids| == 0 then ""
    else if |ids| == 1 then IntToString(ids[0])
    else JoinIds(ids[..|ids| - 1]) + Separator + IntToString(ids[|ids| - 1])
  }

  /** Joining one more id appends it, after a separator unless it is the first. */
  lemma JoinIdsStep(ids: seq<int>, k: nat)
    requires k < |ids|
    ensures JoinIds(ids[..k + 1]) == JoinIds(ids[..k]) + (if k == 0 then "" else Separator) + IntToString(ids[k])
  {
    assert ids[..k + 1][..k] == ids[..k];
    if k == 0 {
      assert "" + IntToString(ids[0]) == IntToString(ids[0]);
    }
  }

  /** The last three characters of `s` are those of `Separator`. */
  predicate EndsWithSeparator(s: string) {
    |s| >= 3 && s[|s| - 3] == Separator[0] && s[|s| - 2] == Separator[1] && s[|s| - 1] == Separator[2]
  }

  /**
   * The pieces of `s` between occurrences of `Separator`, taken from the
   * right, the end `registeredIds` appends to. An empty text is one empty piece.
   */
  function SplitPieces(s: string): (pieces: seq<string>)
    ensures |pieces| >= 1
    decreases |s|
  {
    if s == [] then [""]
    else if EndsWithSeparator(s) then SplitPieces(s[..|s| - |Separator|]) + [""]
    else
      var front := SplitPieces(s[..|s| - 1]);
      front[..|front| - 1] + [front[|front| - 1] + [s[|s| - 1]]]
  }

  /** The pieces put back together, with `Separator` between neighbours. */
  function Glue(pieces: seq<string>): string
    requires |pieces| >= 1
  {
    if |pieces| == 1 then pieces[0] else Glue(pieces[..|pieces| - 1]) + Separator + pieces[|pieces| - 1]
  }

  /** Growing the last piece by `c` grows the glued text by `c`. */
  lemma GlueLast(pieces: seq<string>, c: char)
    requires |pieces| >= 1
    ensures Glue(pieces[..|pieces| - 1] + [pieces[|pieces| - 1] + [c]]) == Glue(pieces) + [c]
  {
    var q := pieces[..|pieces| - 1] + [pieces[|pieces| - 1] + [c]];
    if |pieces| > 1 {
      assert q[..|q| - 1] == pieces[..|pieces| - 1];
      var g := Glue(pieces[..|pieces| - 1]) + Separator;
      assert g + (pieces[|pieces| - 1] + [c]) == (g + pieces[|pieces| - 1]) + [c];
    }
  }

  /** Cutting any text at its separators and gluing the pieces back gives the text again. */
  lemma {:induction false} GlueSplitPieces(s: string)
    ensures Glue(SplitPieces(s)) == s
    decreases |s|
  {
    if s == [] {
    } else if EndsWithSeparator(s) {
      var j := s[..|s| - |Separator|];
      SeparatorAtEnd(s);
      GlueSplitPieces(j);
      GlueAfterSeparator(j);
    } else {
      var j, c := s[..|s| - 1], s[|s| - 1];
      assert s == j + [c];
      GlueSplitPieces(j);
      GlueAfterChar(j, c);
    }
  }

  /** A text that ends with the separator's characters is what comes before them, then `Separator`. */
  lemma SeparatorAtEnd(s: string)
    requires EndsWithSeparator(s)
    ensures s == s[..|s| - |Separator|] + Separator
  {
    assert s[|s| - |Separator|..] == Separator;
  }

  /** The step of `GlueSplitPieces` for a text ending in a separator. */
  lemma GlueAfterSeparator(j: string)
    requires Glue(SplitPieces(j)) == j
    ensures Glue(SplitPieces(j + Separator)) == j + Separator
  {
    SplitPiecesSeparator(j);
    var p := SplitPieces(j) + [""];
    assert p[..|p| - 1] == SplitPieces(j);
    assert j + Separator + "" == j + Separator;
  }

  /** The step of `GlueSplitPieces` for a text ending in another character. */
  lemma GlueAfterChar(j: string, c: char)
    requires !EndsWithSeparator(j + [c]) && Glue(SplitPieces(j)) == j
    ensures Glue(SplitPieces(j + [c])) == j + [c]
  {
    SplitPiecesChar(j, c);
    GlueLast(SplitPieces(j), c);
  }

  /** The list read back as a reader of the output would: nothing for an empty text, otherwise each piece through `atoi`. */
  function SplitIds(s: string): seq<int> {
    if s == [] then []
    else
      var pieces := SplitPieces(s);
      seq(|pieces|, k requires 0 <= k < |pieces| => Atoi(pieces[k]))
  }

  /** `std::to_string` never writes a space. */
  lemma NoSpaceInNumber(i: int)
    ensures forall j :: 0 <= j < |IntToString(i)| ==> IntToString(i)[j] != ' '
  {
  }

  /** Text without a space after `j` joins the last piece of `j`. */
  lemma {:induction false} SplitPiecesWord(j: string, t: string)
    requires forall i :: 0 <= i < |t| ==> t[i] != ' '
    ensures var p := SplitPieces(j);
            SplitPieces(j + t) == p[..|p| - 1] + [p[|p| - 1] + t]
    decreases |t|
  {
    var p := SplitPieces(j);
    if t == [] {
      assert j + t == j && p[|p| - 1] + t == p[|p| - 1];
      assert p[..|p| - 1] + [p[|p| - 1]] == p;
    } else {
      var u, c := t[..|t| - 1], t[|t| - 1];
      assert u + [c] == t;
      assert j + t == (j + u) + [c];
      assert ((j + u) + [c])[|(j + u) + [c]| - 1] == c;
      SplitPiecesChar(j + u, c);
      SplitPiecesWord(j, u);
      LastGrows(p, SplitPieces(j + u), u, c, t);
    }
  }

  /** A character that does not complete a separator joins the last piece. */
  lemma SplitPiecesChar(s: string, c: char)
    requires !EndsWithSeparator(s + [c])
    ensures var front := SplitPieces(s);
            SplitPieces(s + [c]) == front[..|front| - 1] + [front[|front| - 1] + [c]]
  {
    var sc := s + [c];
    assert sc[..|sc| - 1] == s && sc[|sc| - 1] == c;
  }

  /** Extending the last element of `p` by `u`, then by `c`, extends it by `u + [c]`. */
  lemma LastGrows<T>(p: seq<seq<T>>, front: seq<seq<T>>, u: seq<T>, c: T, t: seq<T>)
    requires |p| >= 1 && front == p[..|p| - 1] + [p[|p| - 1] + u] && t == u + [c]
    ensures front[..|front| - 1] + [front[|front| - 1] + [c]] == p[..|p| - 1] + [p[|p| - 1] + t]
  {
    assert front[..|front| - 1] == p[..|p| - 1];
    assert (p[|p| - 1] + u) + [c] == p[|p| - 1] + (u + [c]);
  }

  /** A separator at the end starts a new, empty piece. */
  lemma SplitPiecesSeparator(j: string)
    ensures SplitPieces(j + Separator) == SplitPieces(j) + [""]
  {
    var s := j + Separator;
    assert EndsWithSeparator(s) && s[..|s| - |Separator|] == j;
  }

  /** After a separator, text without a space is the last piece. */
  lemma SplitPiecesLast(j: string, t: string)
    requires forall i :: 0 <= i < |t| ==> t[i] != ' '
    ensures SplitPieces(j + Separator + t) == SplitPieces(j) + [t]
  {
    SplitPiecesSeparator(j);
    SplitPiecesWord(j + Separator, t);
    var p := SplitPieces(j + Separator);
    assert p[..|p| - 1] == SplitPieces(j) && p[|p| - 1] + t == t;
  }

  /** Text without a space is one piece. */
  lemma SplitPiecesWhole(t: string)
    requires forall i :: 0 <= i < |t| ==> t[i] != ' '
    ensures SplitPieces(t) == [t]
  {
    SplitPiecesWord("", t);
    assert "" + t == t;
  }

  /**
   * The joined list cut at every separator gives, piece by piece and in
   * order, the decimal text of each id.
   */
  lemma {:induction false} JoinSplitPieces(ids: seq<int>)
    ensures ids != [] ==>
              && |SplitPieces(JoinIds(ids))| == |ids|
              && forall k :: 0 <= k < |ids| ==> SplitPieces(JoinIds(ids))[k] == IntToString(ids[k])
    decreases |ids|
  {
    if |ids| == 1 {
      NoSpaceInNumber(ids[0]);
      SplitPiecesWhole(IntToString(ids[0]));
    } else if |ids| > 1 {
      var front, last := ids[..|ids| - 1], ids[|ids| - 1];
      var j := JoinIds(front);
      assert JoinIds(ids) == j + Separator + IntToString(last);
      NoSpaceInNumber(last);
      SplitPiecesLast(j, IntToString(last));
      assert SplitPieces(JoinIds(ids)) == SplitPieces(j) + [IntToString(last)];
      assert ids == front + [last];
      JoinSplitPieces(front);
      DecimalsAppend(SplitPieces(j), front, last, SplitPieces(JoinIds(ids)), ids);
    }
  }

  /** The joined list is exactly the decimal text of each id, in order, glued with `Separator`. */
  lemma JoinIdsGlued(ids: seq<int>)
    requires ids != []
    ensures JoinIds(ids) == Glue(seq(|ids|, k requires 0 <= k < |ids| => IntToString(ids[k])))
  {
    PiecesAreDecimals(ids, JoinIds(ids), SplitPieces(JoinIds(ids)));
    GlueSplitPieces(JoinIds(ids));
  }

  /** `JoinSplitPieces` as one sequence equality. */
  lemma PiecesAreDecimals(ids: seq<int>, s: string, pieces: seq<string>)
    requires ids != [] && s == JoinIds(ids) && pieces == SplitPieces(s)
    ensures pieces == seq(|ids|, k requires 0 <= k < |ids| => IntToString(ids[k]))
  {
    JoinSplitPieces(ids);
  }

  /** One more id after pieces that are the decimals of `front` gives the decimals of `front + [last]`. */
  lemma DecimalsAppend(pieces: seq<string>, front: seq<int>, last: int, all: seq<string>, ids: seq<int>)
    requires |pieces| == |front| && forall k :: 0 <= k < |front| ==> pieces[k] == IntToString(front[k])
    requires all == pieces + [IntToString(last)] && ids == front + [last]
    ensures |all| == |ids| && forall k :: 0 <= k < |ids| ==> all[k] == IntToString(ids[k])
  {
  }

  /** The joined list reads back through `atoi` as the ids it was made from, in order. */
  lemma SplitJoinIds(ids: seq<int>)
    ensures SplitIds(JoinIds(ids)) == ids
  {
    if ids != [] {
      JoinSplitPieces(ids);
      var r := SplitIds(JoinIds(ids));
      forall k | 0 <= k < |ids|
        ensures r[k] == ids[k]
      {
        AtoiOfIntToString(ids[k]);
      }
    }
  }

  // ---------------------------------------------------------------------
  // When a registration session stops
  // ---------------------------------------------------------------------

  /**
   * Why the registration loop ended: the interrupt flag, a score of at least
   * 100, or the frame source running dry (for a webcam, a failed read).
   */
  datatype Ending = Interrupted | ScoreReached | SourceEnded

  /** The session's end: why, how many frames went to the registrar, and the last result. */
  datatype Outcome = Outcome(ending: Ending, frames: nat, result: RegistrationResult)

  /** Whether SIGINT arrives just before the `i`-th test of the loop condition. */
  predicate SignalAt(signals: seq<bool>, i: nat) {
    i < |signals| && signals[i]
  }

  /**
   * The registration loop from its `i`-th test on, with `latched` the
   * interrupt flag as it stands, `result` the last registrar result and
   * `available` the number of frames the source will yield. The flag is
   * checked first, then the score, and only then is a frame requested; each
   * frame's result replaces the last one, face or no face.
   */
  function Session(latched: bool, signals: seq<bool>, answers: seq<RegistrationResult>,
                   available: nat, result: RegistrationResult, i: nat): (o: Outcome)
    requires i <= available
    ensures i <= o.frames <= available
    ensures o.ending == SourceEnded ==> o.frames == available
    decreases available - i
  {
    var flag := latched || SignalAt(signals, i);
    if flag then Outcome(Interrupted, i, result)
    else if result.score >= 100 then Outcome(ScoreReached, i, result)
    else if i == available then Outcome(SourceEnded, i, result)
    else Session(false, signals, answers, available, AnswerAt(answers, i), i + 1)
  }

  /** Why and where a session stops. */
  lemma {:induction false} SessionEnds(latched: bool, signals: seq<bool>, answers: seq<RegistrationResult>,
                                       available: nat, result: RegistrationResult, i: nat)
    requires i <= available
    ensures var o := Session(latched, signals, answers, available, result, i);
            && i <= o.frames <= available
            // the result is the latest registrar answer, or the one held on entry when there was none
            && o.result == (if o.frames == i then result else AnswerAt(answers, o.frames - 1))
            // each ending is reached only for its own reason
            && (o.ending == Interrupted ==> (latched && o.frames == i) || SignalAt(signals, o.frames))
            && (o.ending == ScoreReached ==> o.result.score >= 100)
            && (o.ending == SourceEnded ==> o.frames == available && o.result.score < 100)
            // no frame is requested once the flag is up or the score is reached
            && (latched ==> o == Outcome(Interrupted, i, result))
            && (o.frames > i ==> result.score < 100 && !latched)
    ensures var o := Session(latched, signals, answers, available, result, i);
            forall k :: i <= k < o.frames ==> !SignalAt(signals, k)
    ensures var o := Session(latched, signals, answers, available, result, i);
            forall k :: i <= k < o.frames - 1 ==> AnswerAt(answers, k).score < 100
    decreases available - i
  {
    if !(latched || SignalAt(signals, i)) && result.score < 100 && i < available {
      SessionEnds(false, signals, answers, available, AnswerAt(answers, i), i + 1);
    }
  }

  /**
   * With no interrupt and no earlier score of 100, the session hands every
   * frame the source yields to the registrar.
   */
  lemma {:induction false} SessionReadsAll(signals: seq<bool>, answers: seq<RegistrationResult>,
                                           available: nat, result: RegistrationResult, i: nat)
    requires i <= available
    requires i < available ==> result.score < 100
    requires forall k :: i <= k <= available ==> !SignalAt(signals, k)
    requires forall k :: i <= k < available - 1 ==> AnswerAt(answers, k).score < 100
    ensures Session(false, signals, answers, available, result, i).frames == available
    decreases available - i
  {
    if i < available {
      SessionReadsAll(signals, answers, available, AnswerAt(answers, i), i + 1);
    }
  }
}
