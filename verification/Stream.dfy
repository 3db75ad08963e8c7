/** The streaming pipeline: heartbeats while upstream is silent, and a final DONE event when upstream sent none. */
module Stream {
  import opened Wrappers
  import opened Text

  const DONE_LINE := "data: [DONE]"
  const HEARTBEAT := ": heartbeat\n\n"
  const FRAME_END := "\n\n"

  /** How many times waiting for the i-th line, or for the end after the last, times out. */
  type Silence = nat -> nat

  // ---- heartbeats ---------------------------------------------------------------------

  function Repeated(frame: string, n: nat): seq<string> {
    if n == 0 then [] else Repeated(frame, n - 1) + [frame]
  }

  function Heartbeats(n: nat): seq<string> {
    Repeated(HEARTBEAT, n)
  }

  /** The first `n` lines, each after the heartbeats of the silence before it. */
  function Spaced(lines: seq<string>, silence: Silence, n: nat): seq<string>
    requires n <= |lines|
  {
    if n == 0 then [] else Spaced(lines, silence, n - 1) + Heartbeats(silence(n - 1)) + [lines[n - 1]]
  }

  /** What `stream_with_heartbeats` yields of an upstream. */
  function WithHeartbeats(lines: seq<string>, silence: Silence): seq<string> {
    Spaced(lines, silence, |lines|) + Heartbeats(silence(|lines|))
  }

  /** How often waiting times out before the n-th line has come, or, for n lines in all, before the end. */
  function Timeouts(silence: Silence, n: nat): nat {
    if n == 0 then silence(0) else Timeouts(silence, n - 1) + silence(n)
  }

  /** The place of the i-th line in what is yielded: the lines before it, and a frame for each timeout so far. */
  function PlaceOf(silence: Silence, i: nat): nat {
    i + Timeouts(silence, i)
  }

  /** Every line stands in its place, and every other frame of the stream is a heartbeat. */
  ghost predicate HeartbeatsBetween(lines: seq<string>, silence: Silence, n: nat, yielded: seq<string>) {
    && n <= |lines|
    && (forall i: nat :: i < n ==> PlaceOf(silence, i) < |yielded| && yielded[PlaceOf(silence, i)] == lines[i])
    && (forall p :: 0 <= p < |yielded| ==>
          yielded[p] == ": heartbeat\n\n" || exists i: nat :: i < n && p == PlaceOf(silence, i))
  }

  lemma {:induction false} RepeatedIs(frame: string, n: nat)
    ensures |Repeated(frame, n)| == n && forall i :: 0 <= i < n ==> Repeated(frame, n)[i] == frame
  {
    if n > 0 {
      RepeatedIs(frame, n - 1);
    }
  }

  lemma BeatsFollow(lines: seq<string>, silence: Silence, n: nat, yielded: seq<string>, beats: nat)
    requires HeartbeatsBetween(lines, silence, n, yielded)
    ensures |yielded + Heartbeats(beats)| == |yielded| + beats
    ensures HeartbeatsBetween(lines, silence, n, yielded + Heartbeats(beats))
  {
    RepeatedIs(HEARTBEAT, beats);
  }

  lemma LineFollows(lines: seq<string>, silence: Silence, n: nat, yielded: seq<string>)
    requires n < |lines| && HeartbeatsBetween(lines, silence, n, yielded) && |yielded| == PlaceOf(silence, n)
    ensures HeartbeatsBetween(lines, silence, n + 1, yielded + [lines[n]])
  {
  }

  /** Up to the wait for the next line there is a heartbeat for each timeout so far, and the lines stand in their places. */
  lemma {:induction false} SpacedPlaces(lines: seq<string>, silence: Silence, n: nat)
    requires n <= |lines|
    ensures var yielded := Spaced(lines, silence, n) + Heartbeats(silence(n));
            |yielded| == n + Timeouts(silence, n) && HeartbeatsBetween(lines, silence, n, yielded)
  {
    if n == 0 {
      BeatsFollow(lines, silence, 0, [], silence(0));
    } else {
      SpacedPlaces(lines, silence, n - 1);
      LineFollows(lines, silence, n - 1, Spaced(lines, silence, n - 1) + Heartbeats(silence(n - 1)));
      BeatsFollow(lines, silence, n, Spaced(lines, silence, n), silence(n));
    }
  }

  /** The pending `anext`: the line it will bring, or the end, and how often waiting for it will still time out. */
  datatype Future = Future(index: nat, timeouts: nat)

  /**
   * The loop: a timeout yields a heartbeat and leaves the pending future pending, and only a line that has come makes it
   * ask for the next. So a heartbeat is sent for every timeout, before the line that was waited for.
   */
  method StreamWithHeartbeats(lines: seq<string>, silence: Silence, end: Outcome<()>)
    returns (yielded: seq<string>, done: Outcome<()>)
    ensures yielded == WithHeartbeats(lines, silence) && done == end
    ensures |yielded| == |lines| + Timeouts(silence, |lines|)
    ensures HeartbeatsBetween(lines, silence, |lines|, yielded)
  {
    yielded := [];
    var nextLine := Future(0, silence(0));
    while true
      invariant nextLine.index <= |lines| && nextLine.timeouts <= silence(nextLine.index)
      invariant yielded == Spaced(lines, silence, nextLine.index) + Heartbeats(silence(nextLine.index) - nextLine.timeouts)
      decreases |lines| - nextLine.index, nextLine.timeouts
    {
      if nextLine.timeouts > 0 {
        yielded := yielded + [HEARTBEAT];
        nextLine := nextLine.(timeouts := nextLine.timeouts - 1);
        continue;
      }
      if nextLine.index == |lines| {
        break;
      }
      yielded := yielded + [lines[nextLine.index]];
      nextLine := Future(nextLine.index + 1, silence(nextLine.index + 1));
    }
    done := end;
    SpacedPlaces(lines, silence, |lines|);
  }

  // ---- framing ----------------------------------------------------------------------------

  function Frame(line: string): string {
    Strip(line) + FRAME_END
  }

  predicate Blank(line: string) {
    Strip(line) == ""
  }

  predicate IsDone(line: string) {
    Strip(line) == DONE_LINE
  }

  function FrameOf(line: string): seq<string> {
    if Blank(line) then [] else [Frame(line)]
  }

  /** The frames of the lines that are not blank. */
  function Frames(lines: seq<string>): seq<string> {
    if lines == [] then [] else Frames(lines[..|lines| - 1]) + FrameOf(lines[|lines| - 1])
  }

  /** One of the lines is a DONE event. */
  predicate SendsDone(lines: seq<string>) {
    lines != [] && (SendsDone(lines[..|lines| - 1]) || IsDone(lines[|lines| - 1]))
  }

  /** The DONE event as the pipeline appends it. */
  function FinalEvent(wanted: bool): seq<string> {
    if wanted then [DONE_LINE + FRAME_END] else []
  }

  /** `ensure_done_event`, for an upstream that ends or raises. */
  function WithDone(lines: seq<string>, end: Outcome<()>): seq<string> {
    Frames(lines) + FinalEvent(end.Ok? && !SendsDone(lines))
  }

  lemma FrameEndIsSpace(text: string)
    ensures EndsWith(text, FRAME_END) ==> text != "" && IsSpace(text[|text| - 1])
  {
    if EndsWith(text, FRAME_END) {
      assert text[|text| - 1] == text[|text| - 2..][1];
    }
  }

  /** A stripped line does not end in a frame end, so the end is always added and never twice. */
  lemma StrippedIsUnframed(line: string)
    ensures !EndsWith(Strip(line), FRAME_END)
  {
    var left, right := StripSplits(line);
    FrameEndIsSpace(Strip(line));
  }

  /** How many lines have anything on them. */
  function NonBlank(lines: seq<string>): nat {
    if lines == [] then 0 else NonBlank(lines[..|lines| - 1]) + if Strip(lines[|lines| - 1]) == "" then 0 else 1
  }

  /** Each line with anything on it is framed in its turn. */
  lemma {:induction false} FramesInTurn(lines: seq<string>)
    ensures |Frames(lines)| == NonBlank(lines)
    ensures forall i {:trigger lines[i]} :: 0 <= i < |lines| && Strip(lines[i]) != "" ==>
              NonBlank(lines[..i]) < |Frames(lines)| && Frames(lines)[NonBlank(lines[..i])] == Strip(lines[i]) + "\n\n"
  {
    if lines != [] {
      var front := lines[..|lines| - 1];
      FramesInTurn(front);
      forall i | 0 <= i < |lines| && Strip(lines[i]) != ""
        ensures NonBlank(lines[..i]) < |Frames(lines)| && Frames(lines)[NonBlank(lines[..i])] == Strip(lines[i]) + "\n\n"
      {
        if i < |front| {
          assert front[i] == lines[i] && front[..i] == lines[..i];
        }
      }
    }
  }

  lemma {:induction false} DoneIsALine(lines: seq<string>)
    ensures SendsDone(lines) <==> exists i :: 0 <= i < |lines| && Strip(lines[i]) == "data: [DONE]"
  {
    if lines != [] {
      var front := lines[..|lines| - 1];
      DoneIsALine(front);
      assert forall i :: 0 <= i < |front| ==> front[i] == lines[i];
    }
  }

  /** Each line with anything on it is framed in its turn, and a DONE follows if upstream ended without one. */
  ghost predicate FramedInTurn(lines: seq<string>, end: Outcome<()>, yielded: seq<string>) {
    && |yielded| >= NonBlank(lines)
    && (forall i {:trigger lines[i]} :: 0 <= i < |lines| && Strip(lines[i]) != "" ==>
          NonBlank(lines[..i]) < |yielded| && yielded[NonBlank(lines[..i])] == Strip(lines[i]) + "\n\n")
    && yielded[NonBlank(lines)..] ==
         if end.Raise? || (exists i :: 0 <= i < |lines| && Strip(lines[i]) == "data: [DONE]") then []
         else ["data: [DONE]\n\n"]
  }

  lemma WithDoneInTurn(lines: seq<string>, end: Outcome<()>)
    ensures FramedInTurn(lines, end, WithDone(lines, end))
  {
    FramesInTurn(lines);
    DoneIsALine(lines);
    var last := FinalEvent(end.Ok? && !SendsDone(lines));
    assert DONE_LINE + FRAME_END == "data: [DONE]\n\n";
    assert WithDone(lines, end)[|Frames(lines)|..] == last;
  }

  method EnsureDoneEvent(lines: seq<string>, end: Outcome<()>) returns (yielded: seq<string>, done: Outcome<()>)
    ensures yielded == WithDone(lines, end) && done == end
    ensures FramedInTurn(lines, end, yielded)
  {
    var sentDone := false;
    yielded := [];
    for i := 0 to |lines|
      invariant sentDone <==> SendsDone(lines[..i])
      invariant yielded == Frames(lines[..i])
    {
      assert lines[..i + 1][..i] == lines[..i];
      var stripped := Strip(lines[i]);
      if stripped == "" {
        continue;
      }
      if stripped == DONE_LINE {
        sentDone := true;
      }
      StrippedIsUnframed(lines[i]);
      yielded := yielded + [if EndsWith(stripped, FRAME_END) then stripped else stripped + FRAME_END];
    }
    assert lines[..|lines|] == lines;
    if end.Ok? && !sentDone {
      assert "data: " + "[DONE]" == DONE_LINE;
      yielded := yielded + ["data: " + "[DONE]" + FRAME_END];
    }
    WithDoneInTurn(lines, end);
    done := end;
  }

  // ---- transparency ---------------------------------------------------------------------------

  /** A comment in the sense of section 9.2.6 of the WHATWG HTML Living Standard: clients ignore it. */
  predicate IsComment(frame: string) {
    StartsWith(frame, ":")
  }

  function EraseComments(frames: seq<string>): seq<string> {
    if frames == [] then []
    else
      EraseComments(frames[..|frames| - 1]) +
      if IsComment(frames[|frames| - 1]) then [] else [frames[|frames| - 1]]
  }

  function DataFrameOf(line: string): seq<string> {
    if Blank(line) || IsComment(Strip(line)) then [] else [Frame(line)]
  }

  /** The upstream's frames: one for each line that is neither blank nor a comment, in order. */
  function DataFrames(lines: seq<string>): seq<string> {
    if lines == [] then [] else DataFrames(lines[..|lines| - 1]) + DataFrameOf(lines[|lines| - 1])
  }

  lemma {:induction false} EraseAdds(a: seq<string>, b: seq<string>)
    ensures EraseComments(a + b) == EraseComments(a) + EraseComments(b)
  {
    if b == [] {
      assert a + b == a;
    } else {
      assert (a + b)[..|a + b| - 1] == a + b[..|b| - 1];
      EraseAdds(a, b[..|b| - 1]);
    }
  }

  lemma HeartbeatFrame()
    ensures Strip(HEARTBEAT) == ": heartbeat" && !Blank(HEARTBEAT) && !IsDone(HEARTBEAT) && IsComment(Frame(HEARTBEAT))
  {
    assert HEARTBEAT == "" + ": heartbeat" + "\n\n";
    StripIs("", ": heartbeat", "\n\n");
  }

  lemma ErasedOne(line: string)
    ensures EraseComments(FrameOf(line)) == DataFrameOf(line)
  {
    if !Blank(line) {
      assert [Frame(line)][..0] == [];
      assert Frame(line)[0] == Strip(line)[0];
    }
  }

  lemma FramesOfThree(before: seq<string>, beats: seq<string>, line: string)
    ensures Frames(before + beats + [line]) == Frames(before) + Frames(beats) + FrameOf(line)
    ensures SendsDone(before + beats + [line]) <==> SendsDone(before) || SendsDone(beats) || IsDone(line)
  {
    FramesAdd(before + beats, [line]);
    FramesAdd(before, beats);
    FramesOfOne(line);
    DoneOfBoth(before + beats, [line]);
    DoneOfBoth(before, beats);
  }

  /** A line after some frames that leave nothing. */
  lemma LineAfter(before: seq<string>, beats: seq<string>, line: string)
    requires EraseComments(Frames(beats)) == [] && !SendsDone(beats)
    ensures EraseComments(Frames(before + beats + [line])) == EraseComments(Frames(before)) + DataFrameOf(line)
    ensures SendsDone(before + beats + [line]) <==> SendsDone(before) || IsDone(line)
  {
    FramesOfThree(before, beats, line);
    EraseAdds(Frames(before) + Frames(beats), FrameOf(line));
    EraseAdds(Frames(before), Frames(beats));
    ErasedOne(line);
  }

  /** What one more of a frame never changes, any number of it does not. */
  lemma {:induction false} RepeatedChangesNothing<T>(frame: string, n: nat, view: seq<string> -> T)
    requires forall frames :: view(frames + [frame]) == view(frames)
    ensures view(Repeated(frame, n)) == view([])
  {
    if n > 0 {
      RepeatedChangesNothing(frame, n - 1, view);
    }
  }

  lemma OneHeartbeat(frames: seq<string>)
    ensures EraseComments(Frames(frames + [HEARTBEAT])) == EraseComments(Frames(frames))
    ensures SendsDone(frames + [HEARTBEAT]) == SendsDone(frames)
  {
    HeartbeatFrame();
    LineAfter(frames, [], HEARTBEAT);
    assert frames + [] == frames;
  }

  /** Heartbeats leave nothing, and none is a DONE event. */
  lemma HeartbeatsLeaveNothing(n: nat)
    ensures EraseComments(Frames(Heartbeats(n))) == [] && !SendsDone(Heartbeats(n))
  {
    var view := (frames: seq<string>) => (EraseComments(Frames(frames)), SendsDone(frames));
    forall frames ensures view(frames + [HEARTBEAT]) == view(frames) {
      OneHeartbeat(frames);
    }
    RepeatedChangesNothing(HEARTBEAT, n, view);
    assert view([]) == ([], false);
    assert view(Heartbeats(n)) == (EraseComments(Frames(Heartbeats(n))), SendsDone(Heartbeats(n)));
  }

  /** Whatever the silences, the first `n` lines leave their frames. */
  lemma {:induction false} SpacedLeavesFrames(lines: seq<string>, silence: Silence, n: nat)
    requires n <= |lines|
    ensures EraseComments(Frames(Spaced(lines, silence, n))) == DataFrames(lines[..n])
    ensures SendsDone(Spaced(lines, silence, n)) <==> SendsDone(lines[..n])
  {
    if n > 0 {
      SpacedLeavesFrames(lines, silence, n - 1);
      assert lines[..n][..n - 1] == lines[..n - 1];
      HeartbeatsLeaveNothing(silence(n - 1));
      LineAfter(Spaced(lines, silence, n - 1), Heartbeats(silence(n - 1)), lines[n - 1]);
    }
  }

  /** Erasing the comments of the framed stream leaves the upstream's frames. */
  lemma ErasedFrames(lines: seq<string>, silence: Silence)
    ensures EraseComments(Frames(WithHeartbeats(lines, silence))) == DataFrames(lines)
    ensures SendsDone(WithHeartbeats(lines, silence)) <==> SendsDone(lines)
  {
    var spaced, beats := Spaced(lines, silence, |lines|), Heartbeats(silence(|lines|));
    SpacedLeavesFrames(lines, silence, |lines|);
    assert lines[..|lines|] == lines;
    HeartbeatsLeaveNothing(silence(|lines|));
    FramesAdd(spaced, beats);
    EraseAdds(Frames(spaced), Frames(beats));
    DoneOfBoth(spaced, beats);
  }

  lemma FramesOfOne(line: string)
    ensures Frames([line]) == FrameOf(line) && (SendsDone([line]) <==> IsDone(line))
  {
    assert [line][..0] == [];
  }

  lemma {:induction false} DoneOfBoth(a: seq<string>, b: seq<string>)
    ensures SendsDone(a + b) <==> SendsDone(a) || SendsDone(b)
  {
    if b == [] {
      assert a + b == a;
    } else {
      assert (a + b)[..|a + b| - 1] == a + b[..|b| - 1];
      DoneOfBoth(a, b[..|b| - 1]);
    }
  }

  lemma {:induction false} FramesAdd(a: seq<string>, b: seq<string>)
    ensures Frames(a + b) == Frames(a) + Frames(b)
  {
    if b == [] {
      assert a + b == a;
    } else {
      assert (a + b)[..|a + b| - 1] == a + b[..|b| - 1];
      FramesAdd(a, b[..|b| - 1]);
    }
  }

  lemma FinalEventFrames(wanted: bool)
    ensures EraseComments(FinalEvent(wanted)) == Frames(FinalEvent(wanted)) == FinalEvent(wanted)
    ensures SendsDone(FinalEvent(wanted)) <==> wanted
  {
    assert DONE_LINE + FRAME_END == "" + DONE_LINE + FRAME_END;
    StripIs("", DONE_LINE, FRAME_END);
    if wanted {
      assert FinalEvent(wanted)[..0] == [];
    }
  }

  /**
   * For every upstream and every pattern of timeouts, a client that ignores comments sees the frames of the upstream's
   * non-blank, non-comment lines in order, and a DONE after them exactly when upstream ended without sending one.
   */
  lemma StreamIsTransparent(lines: seq<string>, silence: Silence, end: Outcome<()>)
    ensures EraseComments(WithDone(WithHeartbeats(lines, silence), end))
         == DataFrames(lines) + FinalEvent(end.Ok? && !SendsDone(lines))
  {
    ErasedFrames(lines, silence);
    FinalEventFrames(end.Ok? && !SendsDone(lines));
    EraseAdds(Frames(WithHeartbeats(lines, silence)), FinalEvent(end.Ok? && !SendsDone(lines)));
  }

  // ---- idempotence ---------------------------------------------------------------------------------

  lemma StripOfFrame(line: string)
    ensures Strip(Frame(line)) == Strip(line)
  {
    var left, right := StripSplits(line);
    assert Frame(line) == "" + Strip(line) + FRAME_END;
    StripIs("", Strip(line), FRAME_END);
  }

  /** Framing keeps what a line says, so framing a frame changes nothing. */
  lemma FrameTwice(line: string)
    ensures Frames(FrameOf(line)) == FrameOf(line)
    ensures SendsDone(FrameOf(line)) <==> IsDone(line)
  {
    StripOfFrame(line);
    FramesOfOne(Frame(line));
    assert IsDone(Frame(line)) == IsDone(line) && Blank(Frame(line)) == Blank(line) && Frame(Frame(line)) == Frame(line);
  }

  lemma {:induction false} FramesTwice(lines: seq<string>)
    ensures Frames(Frames(lines)) == Frames(lines)
    ensures SendsDone(Frames(lines)) <==> SendsDone(lines)
  {
    if lines != [] {
      var front, last := lines[..|lines| - 1], lines[|lines| - 1];
      FramesTwice(front);
      FrameTwice(last);
      FramesAdd(Frames(front), FrameOf(last));
      DoneOfBoth(Frames(front), FrameOf(last));
    }
  }

  /** Applying `ensure_done_event` to its own output changes nothing, and a stream that ends has a DONE in it. */
  lemma EnsureDoneIsIdempotent(lines: seq<string>, end: Outcome<()>)
    ensures WithDone(WithDone(lines, end), end) == WithDone(lines, end)
    ensures end.Ok? ==> SendsDone(WithDone(lines, end))
  {
    var last := FinalEvent(end.Ok? && !SendsDone(lines));
    FramesTwice(lines);
    FinalEventFrames(end.Ok? && !SendsDone(lines));
    FramesAdd(Frames(lines), last);
    DoneOfBoth(Frames(lines), last);
    assert WithDone(lines, end) + [] == WithDone(lines, end);
  }
}
