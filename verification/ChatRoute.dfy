/** The chat route: what a stream is charged for, and which failures leave an admission lease unsettled. */
module ChatRoute {
  import opened Wrappers
  import opened Numbers
  import opened Text
  import opened Leases
  import opened BatchStore
  import opened AuditService
  import opened TokenAccounting
  import opened Stream

  // ---- the text of a frame ------------------------------------------------------------

  /** How the JSON payload of a data frame reads as assistant text; a payload of an unexpected shape may raise. */
  type Parser = string -> Outcome<string>

  /** `stream_delta_text`. */
  function DeltaText(frame: string, parse: Parser): Outcome<string> {
    if !StartsWith(frame, "data: ") then Ok("")
    else
      var payload := Strip(frame[6..]);
      if payload == "[DONE]" then Ok("") else parse(payload)
  }

  function TextOf(frame: string, parse: Parser): string {
    var text := DeltaText(frame, parse);
    if text.Ok? then text.value else ""
  }

  function Joined(frames: seq<string>, text: string -> string): string {
    if frames == [] then "" else Joined(frames[..|frames| - 1], text) + text(frames[|frames| - 1])
  }

  lemma {:induction false} JoinedAdds(a: seq<string>, b: seq<string>, text: string -> string)
    ensures Joined(a + b, text) == Joined(a, text) + Joined(b, text)
  {
    if b == [] {
      assert a + b == a;
    } else {
      assert (a + b)[..|a + b| - 1] == a + b[..|b| - 1];
      JoinedAdds(a, b[..|b| - 1], text);
    }
  }

  lemma JoinedOne(frame: string, text: string -> string)
    ensures Joined([frame], text) == text(frame) && Joined([], text) == ""
  {
    var frames := [frame];
    assert frames[..|frames| - 1] == [] && Joined([], text) == "";
  }

  /** The text of several frames. */
  function Deltas(frames: seq<string>, parse: Parser): string {
    Joined(frames, (frame: string) => TextOf(frame, parse))
  }

  // ---- the stream's loop ------------------------------------------------------------------

  datatype StreamEnv = StreamEnv(
    disconnected: nat -> Outcome<bool>,
    parse: Parser,
    close: Outcome<()>,
    auditFinalize: Outcome<()>)

  datatype StreamEnd = Completed | ClientDisconnected | Failed(error: Error)

  function StatusOf(end: StreamEnd): string {
    match end
    case Completed => "completed"
    case ClientDisconnected => "client_disconnected"
    case Failed(_) => "failed"
  }

  /** What the text of a frame is, if it can be read: that of its payload, the space around it taken off. */
  ghost predicate ReadsAs(frame: string, parse: Parser, text: Outcome<string>) {
    if "data: " <= frame then
      exists left, payload, right ::
        && frame == "data: " + left + payload + right && AllSpace(left) && AllSpace(right) && IsStripped(payload)
        && text == if payload == "[DONE]" then Ok("") else parse(payload)
    else text == Ok("")
  }

  lemma PayloadIs(left: string, payload: string, right: string)
    requires AllSpace(left) && AllSpace(right) && IsStripped(payload)
    ensures var frame := "data: " + left + payload + right; StartsWith(frame, "data: ") && Strip(frame[6..]) == payload
  {
    var frame := "data: " + left + payload + right;
    assert frame[..6] == "data: " && frame[6..] == left + payload + right;
    StripIs(left, payload, right);
  }

  lemma FrameReadsItsText(frame: string, parse: Parser)
    ensures ReadsAs(frame, parse, DeltaText(frame, parse))
  {
    if StartsWith(frame, "data: ") {
      var left, right := StripSplits(frame[6..]);
      assert frame == frame[..6] + frame[6..];
      assert frame == "data: " + left + Strip(frame[6..]) + right;
    }
  }

  lemma FrameReadsNothingElse(frame: string, parse: Parser, text: Outcome<string>)
    requires ReadsAs(frame, parse, text)
    ensures text == DeltaText(frame, parse)
  {
    if "data: " <= frame {
      var left, payload, right :|
        && frame == "data: " + left + payload + right && AllSpace(left) && AllSpace(right) && IsStripped(payload)
        && text == if payload == "[DONE]" then Ok("") else parse(payload);
      PayloadIs(left, payload, right);
    }
  }

  /** A frame reads as one thing only. */
  lemma FrameReads(frame: string, parse: Parser, text: Outcome<string>)
    ensures ReadsAs(frame, parse, text) <==> text == DeltaText(frame, parse)
  {
    FrameReadsItsText(frame, parse);
    if ReadsAs(frame, parse, text) {
      FrameReadsNothingElse(frame, parse, text);
    }
  }

  /** The payload of a data frame decides what it reads as. */
  lemma DataFrameReads(left: string, payload: string, right: string, parse: Parser, text: Outcome<string>)
    requires AllSpace(left) && AllSpace(right) && IsStripped(payload)
    ensures ReadsAs("data: " + left + payload + right, parse, text)
            <==> text == if payload == "[DONE]" then Ok("") else parse(payload)
  {
    PayloadIs(left, payload, right);
    FrameReads("data: " + left + payload + right, parse, text);
  }

  /**
   * How the loop goes over its events, whose stream ends or raises: it passes an event on if the client is still there
   * and the event can be read, and ends for the first reason not to.
   */
  ghost predicate Consumed(events: seq<string>, end: Outcome<()>, env: StreamEnv, texts: seq<string>, ended: StreamEnd) {
    && |texts| <= |events|
    && (forall i :: 0 <= i < |texts| ==> env.disconnected(i) == Ok(false) && ReadsAs(events[i], env.parse, Ok(texts[i])))
    && if |texts| == |events| then ended == if end.Ok? then Completed else Failed(end.error)
       else
         match env.disconnected(|texts|)
         case Raise(e) => ended == Failed(e)
         case Ok(true) => ended == ClientDisconnected
         case Ok(false) => ended.Failed? && ReadsAs(events[|texts|], env.parse, Raise(ended.error))
  }

  ghost predicate Passed(events: seq<string>, env: StreamEnv, texts: seq<string>) {
    && |texts| <= |events|
    && (forall i :: 0 <= i < |texts| ==> env.disconnected(i) == Ok(false) && DeltaText(events[i], env.parse) == Ok(texts[i]))
  }

  lemma PassedIsConsumed(events: seq<string>, end: Outcome<()>, env: StreamEnv, texts: seq<string>, ended: StreamEnd)
    requires Passed(events, env, texts)
    requires if |texts| == |events| then ended == if end.Ok? then Completed else Failed(end.error)
             else
               match env.disconnected(|texts|)
               case Raise(e) => ended == Failed(e)
               case Ok(true) => ended == ClientDisconnected
               case Ok(false) => ended.Failed? && DeltaText(events[|texts|], env.parse) == Raise(ended.error)
    ensures Consumed(events, end, env, texts, ended)
  {
    forall i | 0 <= i < |texts| ensures ReadsAs(events[i], env.parse, Ok(texts[i])) {
      FrameReads(events[i], env.parse, Ok(texts[i]));
    }
    if |texts| < |events| && ended.Failed? {
      FrameReads(events[|texts|], env.parse, Raise(ended.error));
    }
  }

  /**
   * The loop of `_stream_response` over the events of the pipeline, which ends or raises: it passes on events as long
   * as it can, and the text it has accumulated is that of the events it has passed on, and no other.
   */
  method ConsumeStream(events: seq<string>, end: Outcome<()>, env: StreamEnv)
    returns (yielded: seq<string>, completionText: string, ended: StreamEnd, ghost texts: seq<string>)
    ensures yielded <= events && completionText == Deltas(yielded, env.parse)
    ensures ended.Completed? ==> yielded == events && end.Ok?
    ensures ended.ClientDisconnected? ==> |yielded| < |events| && env.disconnected(|yielded|) == Ok(true)
    ensures Consumed(events, end, env, texts, ended) && |texts| == |yielded|
    ensures completionText == Concatenated(texts)
  {
    completionText := "";
    yielded := [];
    texts := [];
    for n := 0 to |events|
      invariant yielded == events[..n] && |texts| == n && Passed(events, env, texts)
      invariant completionText == Concatenated(texts) == Deltas(yielded, env.parse)
    {
      var gone := env.disconnected(n);
      if gone.Raise? {
        PassedIsConsumed(events, end, env, texts, Failed(gone.error));
        return yielded, completionText, Failed(gone.error), texts;
      }
      if gone.value {
        PassedIsConsumed(events, end, env, texts, ClientDisconnected);
        return yielded, completionText, ClientDisconnected, texts;
      }
      var text := DeltaText(events[n], env.parse);
      if text.Raise? {
        PassedIsConsumed(events, end, env, texts, Failed(text.error));
        return yielded, completionText, Failed(text.error), texts;
      }
      assert events[..n + 1][..n] == events[..n];
      assert (texts + [text.value])[..n] == texts;
      completionText := completionText + text.value;
      texts := texts + [text.value];
      yielded := yielded + [events[n]];
    }
    ended := if end.Ok? then Completed else Failed(end.error);
    PassedIsConsumed(events, end, env, texts, ended);
  }

  /** The frame carries the payload, which is not the end of the stream. */
  ghost predicate Carries(frame: string, payload: string) {
    exists left, right ::
      frame == "data: " + left + payload + right && AllSpace(left) && AllSpace(right) && IsStripped(payload)
      && payload != "[DONE]"
  }

  lemma CarriedIsRead(frame: string, payload: string, parse: Parser, text: Outcome<string>)
    requires Carries(frame, payload)
    ensures ReadsAs(frame, parse, text) <==> text == parse(payload)
  {
    var left, right :| frame == "data: " + left + payload + right && AllSpace(left) && AllSpace(right) && IsStripped(payload)
                       && payload != "[DONE]";
    DataFrameReads(left, payload, right, parse, text);
  }

  /**
   * A stream of payloads for a client that stays: as many are passed on as can be read, and each text is what its payload
   * reads as. The first that cannot be read ends the loop with its exception; without one the stream is passed on whole.
   */
  lemma PayloadsAreRead(events: seq<string>, end: Outcome<()>, env: StreamEnv, texts: seq<string>, ended: StreamEnd,
                        payloads: seq<string>)
    requires Consumed(events, end, env, texts, ended) && |payloads| == |events|
    requires forall i :: 0 <= i < |events| ==> Carries(events[i], payloads[i]) && env.disconnected(i) == Ok(false)
    ensures forall i :: 0 <= i < |texts| ==> env.parse(payloads[i]) == Ok(texts[i])
    ensures |texts| < |events| ==> ended.Failed? && env.parse(payloads[|texts|]) == Raise(ended.error)
    ensures (forall i :: 0 <= i < |events| ==> env.parse(payloads[i]).Ok?) ==> |texts| == |events|
  {
    forall i | 0 <= i < |texts| ensures env.parse(payloads[i]) == Ok(texts[i]) {
      CarriedIsRead(events[i], payloads[i], env.parse, Ok(texts[i]));
    }
    if |texts| < |events| {
      assert env.disconnected(|texts|) == Ok(false);
      CarriedIsRead(events[|texts|], payloads[|texts|], env.parse, Raise(ended.error));
    }
  }

  /** Frames of other kinds, and the DONE event, read as nothing. */
  lemma OthersReadAsNothing(frame: string, parse: Parser)
    ensures !("data: " <= frame) ==> (forall text :: ReadsAs(frame, parse, text) <==> text == Ok(""))
    ensures forall text :: ReadsAs("data: [DONE]\n\n", parse, text) <==> text == Ok("")
  {
    forall text | !("data: " <= frame) ensures ReadsAs(frame, parse, text) <==> text == Ok("") {
      FrameReads(frame, parse, text);
    }
    assert "data: [DONE]\n\n" == "data: " + "" + "[DONE]" + "\n\n";
    forall text ensures ReadsAs("data: [DONE]\n\n", parse, text) <==> text == Ok("") {
      DataFrameReads("", "[DONE]", "\n\n", parse, text);
    }
  }

  function FinalOf(usage: UsageRecord, errorCode: Option<string>): AuditFinal {
    AuditFinal(usage.status, Usage(usage.promptTokens, usage.completionTokens, usage.totalTokens), errorCode)
  }

  /**
   * The loop and its finally block: closing the iterators, the token finalize, the audit, and the slot release, each
   * skipped when one before it raises. So a stream settles its lease exactly when closing and the audit both succeed.
   */
  method StreamResponse(events: seq<string>, end: Outcome<()>, env: StreamEnv, lease: Lease, plan: TokenPlan,
                        count: Estimator)
    returns (yielded: seq<string>, settled: Lease, audit: Option<AuditFinal>, ended: StreamEnd, ghost texts: seq<string>)
    requires lease.log == [] && !lease.finalized && !lease.released
    ensures Consumed(events, end, env, texts, ended) && yielded == events[..|texts|]
    ensures Concatenated(texts) == Deltas(yielded, env.parse)
    ensures FullySettled(settled) <==> env.close.Ok? && env.auditFinalize.Ok?
    ensures settled.released <==> env.close.Ok? && env.auditFinalize.Ok?
    ensures settled.finalized <==> env.close.Ok?
    ensures audit.Some? <==> env.close.Ok? && env.auditFinalize.Ok?
    ensures var completion := count(Concatenated(texts)); var total := plan.promptTokens + completion;
            && (settled.finalized ==>
                  |settled.log| >= 1
                  && settled.log[0] == TokensFinalized(Max(if ended.Failed? then lease.reserved else lease.reserved - total, 0)))
            && (audit.Some? ==>
                  && audit.value.usage == Usage(plan.promptTokens, completion, total)
                  && audit.value.status == (match ended case Completed => "completed"
                                                        case ClientDisconnected => "client_disconnected"
                                                        case Failed(_) => "failed")
                  && audit.value.errorCode == (if ended.Failed? then Some(ended.error.code) else None))
  {
    var completionText;
    yielded, completionText, ended, texts := ConsumeStream(events, end, env);
    settled := lease;
    audit := None;
    if env.close.Raise? {
      return;
    }
    var usage := UsageFromStreamText(completionText, plan, count, StatusOf(ended));
    settled := FinalizeTokens(settled, usage.totalTokens, ended.Failed?);
    if env.auditFinalize.Raise? {
      return;
    }
    audit := Some(FinalOf(usage, if ended.Failed? then Some(ended.error.code) else None));
    settled := ReleaseSlot(settled);
  }

  // ---- the non-streaming path -------------------------------------------------------------------

  datatype CallEnv = CallEnv(
    prepare: Outcome<()>,
    auditStart: Outcome<()>,
    vllm: Outcome<Response>,
    extract: Outcome<()>,
    auditCompleted: Outcome<()>,
    render: Outcome<()>,
    auditFailed: Outcome<()>)

  /** Whether the call got as far as charging the lease for what it used. */
  predicate Charged(env: CallEnv) {
    env.vllm.Ok? && env.extract.Ok?
  }

  /**
   * The path of `create_chat_completion` from its admission on. What runs before the try, the audit start above all,
   * is not covered by the finally: the lease is settled exactly when none of that raises, whatever raises later. It is
   * charged for the usage as soon as there is one, and gives everything back otherwise. The first call that raises is the
   * exception that escapes and the error code that is audited, unless the failed audit itself raises: then its exception
   * escapes, and an audit that already said completed keeps saying so.
   */
  method CreateChatCompletion(env: CallEnv, lease: Lease, plan: TokenPlan, count: Estimator)
    returns (response: Outcome<Response>, settled: Lease, audit: Option<AuditFinal>)
    requires lease.log == [] && !lease.finalized && !lease.released
    ensures FullySettled(settled) <==> env.prepare.Ok? && env.auditStart.Ok?
    ensures !FullySettled(settled) ==> settled == lease && response.Raise? && audit == None
    ensures FullySettled(settled) ==>
              settled.log[0] == TokensFinalized(
                Max(if Charged(env) then lease.reserved - ResponseUsage(env.vllm.value, plan, count).totalTokens
                    else lease.reserved, 0))
    ensures response.Ok? <==> env.prepare.Ok? && env.auditStart.Ok? && Charged(env) && env.auditCompleted.Ok? && env.render.Ok?
    ensures env.prepare.Raise? ==> response == Raise(env.prepare.error)
    ensures env.prepare.Ok? && env.auditStart.Raise? ==> response == Raise(env.auditStart.error)
    ensures FullySettled(settled) ==>
              var failure := if env.vllm.Raise? then Some(env.vllm.error)
                             else if env.extract.Raise? then Some(env.extract.error)
                             else if env.auditCompleted.Raise? then Some(env.auditCompleted.error)
                             else if env.render.Raise? then Some(env.render.error) else None;
              var completed := if Charged(env) && env.auditCompleted.Ok?
                               then var u := ResponseUsage(env.vllm.value, plan, count);
                                    Some(AuditFinal("completed", Usage(u.promptTokens, u.completionTokens, u.totalTokens), None))
                               else None;
              && response == (if failure.None? then env.vllm
                              else Raise(if env.auditFailed.Raise? then env.auditFailed.error else failure.value))
              && audit == (if failure.Some? && env.auditFailed.Ok?
                           then Some(AuditFinal("failed", Usage(plan.promptTokens, 0, 0), Some(failure.value.code)))
                           else completed)
  {
    settled, audit := lease, None;
    if env.prepare.Raise? {
      return Raise(env.prepare.error), settled, audit;
    }
    if env.auditStart.Raise? {
      return Raise(env.auditStart.error), settled, audit;
    }
    // try
    var failure: Option<Error> := None;
    response := env.vllm;
    if response.Raise? {
      failure := Some(response.error);
    } else if env.extract.Raise? {
      failure := Some(env.extract.error);
    } else {
      var usage := UsageFromResponse(response.value, plan, count);
      settled := FinalizeTokens(settled, usage.totalTokens, false);
      if env.auditCompleted.Raise? {
        failure := Some(env.auditCompleted.error);
      } else {
        audit := Some(FinalOf(usage, None));
        if env.render.Raise? {
          failure := Some(env.render.error);
        }
      }
    }
    // except
    if failure.Some? {
      settled := FinalizeTokens(settled, 0, true);
      response := Raise(failure.value);
      if env.auditFailed.Raise? {
        response := Raise(env.auditFailed.error);
      } else {
        audit := Some(FinalOf(UsageRecord(plan.promptTokens, 0, 0, "failed"), Some(failure.value.code)));
      }
    }
    // finally
    settled := ReleaseSlot(settled);
  }

  // ---- what a stream is charged for -------------------------------------------------------------------

  lemma DeltasAdd(a: seq<string>, b: seq<string>, parse: Parser)
    ensures Deltas(a + b, parse) == Deltas(a, parse) + Deltas(b, parse)
  {
    JoinedAdds(a, b, (frame: string) => TextOf(frame, parse));
  }

  /** Comments, heartbeats among them, carry no text. */
  lemma {:induction false} CommentsAreNotCounted(frames: seq<string>, parse: Parser)
    ensures Deltas(EraseComments(frames), parse) == Deltas(frames, parse)
  {
    if frames != [] {
      var front, last := frames[..|frames| - 1], frames[|frames| - 1];
      CommentsAreNotCounted(front, parse);
      CommentHasNoText(last, parse);
      DeltasAdd(EraseComments(front), [last], parse);
      DeltasOfOne(last, parse);
      assert EraseComments(front) + [] == EraseComments(front);
    }
  }

  lemma DeltasOfOne(frame: string, parse: Parser)
    ensures Deltas([frame], parse) == TextOf(frame, parse)
  {
    JoinedOne(frame, (frame: string) => TextOf(frame, parse));
  }

  lemma CommentHasNoText(frame: string, parse: Parser)
    ensures IsComment(frame) ==> TextOf(frame, parse) == ""
  {
    if IsComment(frame) {
      assert frame[0] == ':';
    }
  }

  lemma FinalEventHasNoText(wanted: bool, parse: Parser)
    ensures Deltas(FinalEvent(wanted), parse) == ""
  {
    var frame := DONE_LINE + FRAME_END;
    assert frame[6..] == "" + "[DONE]" + "\n\n";
    StripIs("", "[DONE]", "\n\n");
    assert frame[..6] == "data: ";
    DeltasOfOne(frame, parse);
  }

  /**
   * However often the upstream falls silent, and whether or not the gateway has to add the DONE event, a stream that is
   * passed on whole is charged for the text of the upstream's own data frames.
   */
  lemma SilenceIsNotCharged(lines: seq<string>, silence: Silence, end: Outcome<()>, parse: Parser)
    ensures Deltas(WithDone(WithHeartbeats(lines, silence), end), parse) == Deltas(DataFrames(lines), parse)
  {
    var wanted := end.Ok? && !SendsDone(lines);
    CommentsAreNotCounted(WithDone(WithHeartbeats(lines, silence), end), parse);
    StreamIsTransparent(lines, silence, end);
    DeltasAdd(DataFrames(lines), FinalEvent(wanted), parse);
    FinalEventHasNoText(wanted, parse);
  }
}
