/** What the pacing loop of `VideoReader::GetFrame` guarantees, over all captures. */
module VideoProperties {
  import opened Video

  /** A returned frame always passes the sampling gate: at least one period after the last emitted one. */
  lemma {:induction false} PaceGate(rate: nat, last: int, pos: int, s: seq<Attempt>)
    ensures var p := Pace(rate, last, pos, s);
            p.ok ==> !Discard(rate, last, p.timestamp)
    ensures var p := Pace(rate, last, pos, s);
            rate > 0 && p.ok && p.timestamp > 0 ==> p.timestamp - last >= 1000 / rate
    decreases |s|
  {
    var d := FrameData(pos, s);
    if d.ok && Discard(rate, last, d.timestamp) {
      PaceGate(rate, last, d.timestamp, Drop(s, d.grabs));
    }
  }

  /** Every frame of `p.decoded` except the returned one was discarded by the gate. */
  ghost predicate OnlyDiscardedBefore(rate: nat, last: int, p: Paced) {
    forall i :: 0 <= i < |p.decoded| - (if p.ok then 1 else 0) ==>
      Discard(rate, last, p.decoded[i]) && p.decoded[i] > 0
  }

  /**
   * Every frame decoded and not returned was discarded by the gate: its
   * timestamp is positive and less than one period after the last emitted one.
   * So a decoded timestamp of 0 or less always ends the call.
   */
  lemma {:induction false} PaceDiscardsOnlyBelowGate(rate: nat, last: int, pos: int, s: seq<Attempt>)
    ensures OnlyDiscardedBefore(rate, last, Pace(rate, last, pos, s))
    decreases |s|
  {
    var d := FrameData(pos, s);
    var p := Pace(rate, last, pos, s);
    if d.ok && Discard(rate, last, d.timestamp) {
      var q := Pace(rate, last, d.timestamp, Drop(s, d.grabs));
      PaceDiscardsOnlyBelowGate(rate, last, d.timestamp, Drop(s, d.grabs));
      assert p.decoded == [d.timestamp] + q.decoded && p.ok == q.ok;
      forall i | 0 <= i < |p.decoded| - (if p.ok then 1 else 0)
        ensures Discard(rate, last, p.decoded[i]) && p.decoded[i] > 0
      {
        if i > 0 {
          assert p.decoded[i] == q.decoded[i - 1];
        }
      }
    }
  }

  /** Without sampling the call is exactly one `GetFrameData`, returned as it is. */
  lemma PaceWithoutSampling(last: int, pos: int, s: seq<Attempt>)
    ensures var p := Pace(0, last, pos, s);
            var d := FrameData(pos, s);
            p.ok == d.ok && p.timestamp == d.timestamp && p.rest == Drop(s, d.grabs)
            && p.decoded == (if d.ok then [d.timestamp] else [])
  {
  }

  /**
   * Across successive calls: each returned timestamp that is positive lies at
   * least one period after the previous returned one (the first after `last`).
   */
  lemma {:induction false} EmittedSpacing(rate: nat, last: int, pos: int, s: seq<Attempt>)
    requires rate > 0
    ensures var e := Emitted(rate, last, pos, s);
            (|e| > 0 && e[0] > 0 ==> e[0] - last >= 1000 / rate)
            && forall k :: 0 <= k < |e| - 1 && e[k + 1] > 0 ==> e[k + 1] - e[k] >= 1000 / rate
    decreases |s|
  {
    var p := Pace(rate, last, pos, s);
    PaceGate(rate, last, pos, s);
    if p.ok {
      var tail := Emitted(rate, p.timestamp, p.timestamp, p.rest);
      EmittedSpacing(rate, p.timestamp, p.timestamp, p.rest);
      var e := Emitted(rate, last, pos, s);
      assert e == [p.timestamp] + tail;
      forall k | 0 <= k < |e| - 1 && e[k + 1] > 0
        ensures e[k + 1] - e[k] >= 1000 / rate
      {
        if k > 0 {
          assert e[k] == tail[k - 1] && e[k + 1] == tail[k];
        }
      }
    }
  }

  /** With the intended seed the first frame `GetFrameData` produces is always returned. */
  lemma FirstFrameAlwaysReturned(rate: nat, pos: int, s: seq<Attempt>)
    requires FrameData(pos, s).ok
    ensures var p := Pace(rate, InitialLastTimestamp(rate), pos, s);
            p.ok && p.timestamp == FrameData(pos, s).timestamp && |p.decoded| == 1
  {
    var d := FrameData(pos, s);
    assert !Discard(rate, InitialLastTimestamp(rate), d.timestamp);
  }

  function Frame(ts: int): Attempt {
    Attempt(true, true, ts)
  }

  /** A frame that passes the gate is returned at once. */
  lemma PaceReturnsFirst(rate: nat, last: int, pos: int, a: int, rest: seq<Attempt>)
    requires !Discard(rate, last, a)
    ensures Pace(rate, last, pos, [Frame(a)] + rest) == Paced(true, a, [a], rest)
  {
    assert ([Frame(a)] + rest)[1..] == rest;
  }

  /** A frame that fails the gate is discarded and the next one, passing it, is returned. */
  lemma PaceReturnsSecond(rate: nat, last: int, pos: int, a: int, b: int, rest: seq<Attempt>)
    requires Discard(rate, last, a) && !Discard(rate, last, b)
    ensures Pace(rate, last, pos, [Frame(a), Frame(b)] + rest) == Paced(true, b, [a, b], rest)
  {
    var s := [Frame(a), Frame(b)] + rest;
    assert s[1..] == [Frame(b)] + rest;
    PaceReturnsFirst(rate, last, a, b, rest);
  }

  /** A capture of ten frames, 100 ms apart, starting at 0. */
  function TenFrames(): seq<Attempt> {
    [Frame(0)] + ([Frame(100), Frame(200)] + ([Frame(300), Frame(400)] +
      ([Frame(500), Frame(600)] + ([Frame(700), Frame(800)] + [Frame(900)]))))
  }

  /** A frame that passes the gate is the next value returned. */
  lemma EmittedFirst(rate: nat, last: int, pos: int, a: int, rest: seq<Attempt>)
    requires !Discard(rate, last, a)
    ensures Emitted(rate, last, pos, [Frame(a)] + rest) == [a] + Emitted(rate, a, a, rest)
  {
    PaceReturnsFirst(rate, last, pos, a, rest);
  }

  /** A discarded frame followed by one that passes: the second is the next value returned. */
  lemma EmittedSecond(rate: nat, last: int, pos: int, a: int, b: int, rest: seq<Attempt>)
    requires Discard(rate, last, a) && !Discard(rate, last, b)
    ensures Emitted(rate, last, pos, [Frame(a), Frame(b)] + rest) == [b] + Emitted(rate, b, b, rest)
  {
    PaceReturnsSecond(rate, last, pos, a, b, rest);
  }

  /** After 800 ms the frame at 900 ms is discarded and the capture is exhausted. */
  lemma LastFrameDiscarded(rate: nat)
    requires rate == 5
    ensures Emitted(rate, 800, 800, [Frame(900)]) == []
  {
    var s := [Frame(900)];
    assert FrameData(800, s) == Decoded(true, 900, 1);
    assert Drop(s, 1) == [];
    assert FrameData(900, []) == Decoded(false, 0, 3);
    assert Pace(rate, 800, 900, []) == Paced(false, 0, [], []);
    assert Pace(rate, 800, 800, s) == Paced(false, 0, [900], []);
  }

  /** Two frames of which the second passes the gate, then `tail` from the rest. */
  lemma EmittedPair(rate: nat, last: int, a: int, b: int, rest: seq<Attempt>, tail: seq<int>)
    requires Discard(rate, last, a) && !Discard(rate, last, b)
    requires Emitted(rate, b, b, rest) == tail
    ensures Emitted(rate, last, last, [Frame(a), Frame(b)] + rest) == [b] + tail
  {
    EmittedSecond(rate, last, last, a, b, rest);
  }

  /** The five timestamps the scenario below returns, built one at a time. */
  lemma EveryOtherHundred()
    ensures [0] + ([200] + ([400] + ([600] + ([800] + [])))) == [0, 200, 400, 600, 800]
  {
  }

  /**
   * Sampling at 5 frames per second returns every other frame of that
   * capture, 0, 200, 400, 600 and 800, and then fails.
   */
  lemma FiveFramesPerSecondScenario(rate: nat)
    requires rate == 5
    ensures Emitted(rate, InitialLastTimestamp(rate), 0, TenFrames()) == [0, 200, 400, 600, 800]
  {
    var r4 := [Frame(900)];
    var r3 := [Frame(700), Frame(800)] + r4;
    var r2 := [Frame(500), Frame(600)] + r3;
    var r1 := [Frame(300), Frame(400)] + r2;
    var r0 := [Frame(100), Frame(200)] + r1;
    var e4: seq<int> := [];
    var e3 := [800] + e4;
    var e2 := [600] + e3;
    var e1 := [400] + e2;
    var e0 := [200] + e1;
    LastFrameDiscarded(rate);
    EmittedPair(rate, 600, 700, 800, r4, e4);
    EmittedPair(rate, 400, 500, 600, r3, e3);
    EmittedPair(rate, 200, 300, 400, r2, e2);
    EmittedPair(rate, 0, 100, 200, r1, e1);
    assert InitialLastTimestamp(rate) == -200;
    EmittedFirst(rate, -200, 0, 0, r0);
    EveryOtherHundred();
  }

  // ---------------------------------------------------------------------
  // The seed of `last_timestamp_ms` as written
  // ---------------------------------------------------------------------

  /** Every attempt of the capture reports a position strictly between 0 and 2^32 ms. */
  ghost predicate PositionsBelowWrap(s: seq<Attempt>) {
    forall i :: 0 <= i < |s| ==> 0 < s[i].timestamp < 0x1_0000_0000
  }

  /**
   * With sampling on (at most 1000 frames per second), the wrapped seed makes
   * the gate discard every frame whose position lies below 2^32 ms.
   */
  lemma AsWrittenSeedDiscards(rate: nat, ts: int)
    requires 0 < rate <= 1000 && 0 < ts < 0x1_0000_0000
    ensures Discard(rate, InitialLastTimestampAsWritten(rate), ts)
  {
    assert 1000 / rate > 0;
    assert InitialLastTimestampAsWritten(rate) == 0x1_0000_0000 - 1000 / rate;
  }

  /** Hence `GetFrame` never returns a frame of such a capture: it reads on to the end and fails. */
  lemma {:induction false} AsWrittenSeedReturnsNothing(rate: nat, pos: int, s: seq<Attempt>)
    requires 0 < rate <= 1000 && PositionsBelowWrap(s)
    ensures !Pace(rate, InitialLastTimestampAsWritten(rate), pos, s).ok
    decreases |s|
  {
    var last := InitialLastTimestampAsWritten(rate);
    var d := FrameData(pos, s);
    if d.ok {
      assert s[d.grabs - 1].timestamp == d.timestamp;
      AsWrittenSeedDiscards(rate, d.timestamp);
      var rest := Drop(s, d.grabs);
      assert forall i :: 0 <= i < |rest| ==> rest[i] == s[d.grabs + i];
      AsWrittenSeedReturnsNothing(rate, d.timestamp, rest);
    }
  }

  /**
   * The input that shows the discrepancy: at 5 frames per second a capture of
   * two frames at 100 ms and 300 ms yields no frame with the seed as written ...
   */
  lemma SeedWitnessAsWritten(rate: nat, s: seq<Attempt>)
    requires rate == 5 && s == [Frame(100), Frame(300)]
    ensures Emitted(rate, InitialLastTimestampAsWritten(rate), 0, s) == []
  {
    AsWrittenSeedReturnsNothing(rate, 0, s);
  }

  /** ... and both frames with the intended seed. */
  lemma SeedWitnessIntended(rate: nat, s: seq<Attempt>)
    requires rate == 5 && s == [Frame(100), Frame(300)]
    ensures Emitted(rate, InitialLastTimestamp(rate), 0, s) == [100, 300]
  {
    var none: seq<Attempt> := [];
    var r := [Frame(300)] + none;
    assert s == [Frame(100)] + r;
    var e1: seq<int> := [];
    var e0 := [300] + e1;
    assert InitialLastTimestamp(rate) == -200;
    assert Emitted(rate, 300, 300, none) == e1;
    EmittedFirst(rate, 100, 100, 300, none);
    EmittedFirst(rate, -200, 0, 100, r);
    BothFrames();
  }

  /** The two timestamps of the witness, built one at a time. */
  lemma BothFrames()
    ensures [100] + ([300] + []) == [100, 300]
  {
  }
}
