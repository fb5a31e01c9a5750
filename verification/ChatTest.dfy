/**
  One diagnostic chat with one model: the producer half of the streaming endpoint
  (`run_one_unbounded`).  The upstream client is its input: the chunks it yields, how the
  stream ends, and what the non-streaming request would answer.  Recording usage swallows its
  own failures.  A time-out may strike at any chunk boundary or during the non-streaming request.
*/
module ChatTest {
  import opened Text

  datatype Chunk = Chunk(delta: string, done: bool, streamFallback: bool)

  /** An exception as the handlers tell exceptions apart. */
  datatype Failure =
    | NotImplemented
    | Llm(capabilityMismatch: bool, status: int, loweredMessage: string)   // status -1: none
    | TimedOut
    | Unexpected

  datatype StreamEnd = Exhausted | Raised(failure: Failure)
  datatype Completion = Completed(text: string) | CompletionRaised(failure: Failure)

  datatype Result = Result(ok: bool, response: string, streaming: bool, streamFallback: bool)

  datatype Event =
    | Start
    | Delta(text: string)
    | Done(result: Result)
    | Error(result: Result)

  predicate Terminal(e: Event) {
    e.Done? || e.Error?
  }

  /** start · delta* · one terminal: what the consumer may rely on. */
  predicate IsScript(es: seq<Event>) {
    && |es| >= 2
    && es[0].Start?
    && (forall i | 1 <= i < |es| - 1 :: es[i].Delta?)
    && Terminal(es[|es| - 1])
  }

  // The two error messages the producer itself raises carry no status and no fallback marker.
  const OVER_LIMIT := Llm(false, -1, "模型流式输出超过测活内容上限。")

  /** `_chat_stream_can_fallback` */
  predicate CanFallBack(f: Failure) {
    match f
    case NotImplemented => true
    case Llm(mismatch, status, message) =>
      || mismatch
      || status in {405, 406, 415, 501}
      || (status in {400, 422} && Contains(message, "stream")
          && (Contains(message, "不支持") || Contains(message, "unsupported")
              || Contains(message, "not support") || Contains(message, "unknown parameter")))
    case _ => false
  }

  function Limit(maxTokens: int): (limit: int)
    ensures limit >= 16384 && limit >= 16 * maxTokens && (limit == 16384 || limit == 16 * maxTokens)
  {
    if maxTokens * 16 > 16384 then maxTokens * 16 else 16384
  }

  /** The non-empty deltas of a stretch of chunks. */
  function Deltas(chunks: seq<Chunk>): seq<string> {
    if chunks == [] then []
    else (if chunks[0].delta != "" then [chunks[0].delta] else []) + Deltas(chunks[1..])
  }

  function Chars(parts: seq<string>): nat {
    |Join(parts)|
  }

  /** The texts of the delta events, in order. */
  function Sent(es: seq<Event>): seq<string> {
    if es == [] then []
    else (if es[0].Delta? then [es[0].text] else []) + Sent(es[1..])
  }

  predicate Fits(chunks: seq<Chunk>, k: nat, limit: int)
    requires k <= |chunks|
  {
    Chars(Deltas(chunks[..k])) <= limit
  }

  /** `k` chunks are read in full: either all of them, or the next one breaks the limit. */
  ghost predicate ReadsExactly(chunks: seq<Chunk>, k: nat, limit: int) {
    && k <= |chunks|
    && Fits(chunks, k, limit)
    && (k < |chunks| ==> !Fits(chunks, k + 1, limit))
  }

  predicate AnyDone(chunks: seq<Chunk>) {
    exists i | 0 <= i < |chunks| :: chunks[i].done
  }

  predicate AnyFallback(chunks: seq<Chunk>) {
    exists i | 0 <= i < |chunks| :: chunks[i].streamFallback
  }

  predicate AllBlank(parts: seq<string>) {
    forall i | 0 <= i < |parts| :: Blank(parts[i])
  }

  /** The stream broke in a way that only means "streaming is not offered here". */
  predicate StreamRefused(read: seq<Chunk>, all: bool, end: StreamEnd) {
    all && end.Raised? && CanFallBack(end.failure) && AllBlank(Deltas(read))
  }

  /** The stream itself carried the answer to its final chunk. */
  predicate StreamAnswers(read: seq<Chunk>, all: bool, end: StreamEnd) {
    && all && AnyDone(read)
    && (end.Exhausted? || (StreamRefused(read, all, end) && AnyFallback(read)))
  }

  /** The non-streaming request replaces the stream, and its answer is usable. */
  predicate CompletionAnswers(read: seq<Chunk>, all: bool, end: StreamEnd, completion: Completion, limit: int) {
    && StreamRefused(read, all, end) && !AnyFallback(read)
    && completion.Completed? && |completion.text| <= limit
  }

  /** The last event is `Done`. */
  predicate Succeeds(read: seq<Chunk>, all: bool, end: StreamEnd, completion: Completion, limit: int) {
    StreamAnswers(read, all, end) || CompletionAnswers(read, all, end, completion, limit)
  }

  /** A text that says streaming is not supported, in one of the forms providers use. */
  ghost predicate RefusesStreaming(message: string) {
    && (exists a, b :: message == a + "stream" + b)
    && exists a, why, b ::
         && why in {"不支持", "unsupported", "not support", "unknown parameter"}
         && message == a + why + b
  }

  lemma {:induction false} ContainsMeans(text: string, part: string)
    ensures Contains(text, part) <==> exists a, b :: text == a + part + b
  {
    if Contains(text, part) {
      var i :| 0 <= i <= |text| && part <= text[i..];
      assert text == text[..i] + part + text[i + |part|..];
    }
    if a, b :| text == a + part + b {
      assert text[|a|..] == part + b;
    }
  }

  lemma {:induction false} SpeaksOfRefusal(message: string)
    ensures RefusesStreaming(message) <==>
            Contains(message, "stream")
            && (Contains(message, "不支持") || Contains(message, "unsupported")
                || Contains(message, "not support") || Contains(message, "unknown parameter"))
  {
    ContainsMeans(message, "stream");
    ContainsMeans(message, "不支持");
    ContainsMeans(message, "unsupported");
    ContainsMeans(message, "not support");
    ContainsMeans(message, "unknown parameter");
  }

  /** The error says that streaming is not offered, and no more than that. */
  ghost predicate OnlyRefused(failure: Failure) {
    match failure
    case NotImplemented => true
    case Llm(mismatch, status, message) =>
      || mismatch
      || status == 405 || status == 406 || status == 415 || status == 501
      || ((status == 400 || status == 422) && RefusesStreaming(message))
    case TimedOut => false
    case Unexpected => false
  }

  lemma {:induction false} CanFallBackMeans(failure: Failure)
    ensures CanFallBack(failure) <==> OnlyRefused(failure)
  {
    if failure.Llm? {
      SpeaksOfRefusal(failure.loweredMessage);
    }
  }

  lemma {:induction false} BlankDeltas(chunks: seq<Chunk>)
    ensures AllBlank(Deltas(chunks)) <==> forall c | c in chunks :: Blank(c.delta)
  {
    if chunks != [] {
      BlankDeltas(chunks[1..]);
      assert chunks == [chunks[0]] + chunks[1..];
      var head := if chunks[0].delta != "" then [chunks[0].delta] else [];
      assert Deltas(chunks) == head + Deltas(chunks[1..]);
      assert AllBlank(Deltas(chunks)) <==> AllBlank(head) && AllBlank(Deltas(chunks[1..])) by {
        BlankParts(head, Deltas(chunks[1..]));
      }
      assert AllBlank(head) <==> Blank(chunks[0].delta);
    }
  }

  lemma {:induction false} BlankParts(a: seq<string>, b: seq<string>)
    ensures AllBlank(a + b) <==> AllBlank(a) && AllBlank(b)
  {
    forall i | 0 <= i < |a| ensures (a + b)[i] == a[i] {}
    forall i | 0 <= i < |b| ensures (a + b)[|a| + i] == b[i] {}
  }

  /**
    When a chat succeeds.  A stream that runs to its end must have carried a final chunk.  One
    that breaks must have said nothing but blanks and must only have refused streaming; then the
    final chunk decides if the client fell back by itself, and otherwise a second, non-streaming
    request whose answer keeps within the limit.  A stream that breaks the limit fails.
  */
  lemma {:induction false} WhenItSucceeds(read: seq<Chunk>, all: bool, end: StreamEnd,
                                          completion: Completion, limit: int)
    ensures Succeeds(read, all, end, completion, limit) <==>
            && all
            && match end
               case Exhausted => exists c | c in read :: c.done
               case Raised(failure) =>
                 && OnlyRefused(failure)
                 && (forall c | c in read :: Blank(c.delta))
                 && if exists c | c in read :: c.streamFallback then exists c | c in read :: c.done
                    else completion.Completed? && |completion.text| <= limit
  {
    BlankDeltas(read);
    if end.Raised? {
      CanFallBackMeans(end.failure);
    }
    assert AnyDone(read) <==> exists c | c in read :: c.done;
    assert AnyFallback(read) <==> exists c | c in read :: c.streamFallback;
  }

  lemma {:induction false} DeltasAppend(chunks: seq<Chunk>, c: Chunk)
    ensures Deltas(chunks + [c]) == Deltas(chunks) + (if c.delta != "" then [c.delta] else [])
  {
    if chunks != [] {
      DeltasAppend(chunks[1..], c);
      assert (chunks + [c])[1..] == chunks[1..] + [c];
    }
  }

  lemma {:induction false} SentAppend(es: seq<Event>, e: Event)
    ensures Sent(es + [e]) == Sent(es) + (if e.Delta? then [e.text] else [])
  {
    if es != [] {
      SentAppend(es[1..], e);
      assert (es + [e])[1..] == es[1..] + [e];
    }
  }

  lemma {:induction false} TakeOneMore(chunks: seq<Chunk>, i: nat)
    requires i < |chunks|
    ensures Deltas(chunks[..i + 1]) ==
            Deltas(chunks[..i]) + (if chunks[i].delta != "" then [chunks[i].delta] else [])
    ensures Chars(Deltas(chunks[..i + 1])) == Chars(Deltas(chunks[..i])) + |chunks[i].delta|
  {
    assert chunks[..i + 1] == chunks[..i] + [chunks[i]];
    DeltasAppend(chunks[..i], chunks[i]);
    if chunks[i].delta != "" {
      JoinAppend(Deltas(chunks[..i]), chunks[i].delta);
    } else {
      assert Deltas(chunks[..i + 1]) == Deltas(chunks[..i]);
    }
  }

  lemma {:induction false} CharsGrow(chunks: seq<Chunk>, i: nat, j: nat)
    requires i <= j <= |chunks|
    ensures Chars(Deltas(chunks[..i])) <= Chars(Deltas(chunks[..j]))
    decreases j - i
  {
    if i < j {
      TakeOneMore(chunks, i);
      CharsGrow(chunks, i + 1, j);
    }
  }

  /** The number of chunks read is determined by the chunks and the limit alone. */
  lemma {:induction false} ReadsExactlyUnique(chunks: seq<Chunk>, j: nat, k: nat, limit: int)
    requires ReadsExactly(chunks, j, limit) && ReadsExactly(chunks, k, limit)
    ensures j == k
  {
    if j < k {
      CharsGrow(chunks, j + 1, k);
    } else if k < j {
      CharsGrow(chunks, k + 1, j);
    }
  }

  /** What `emit(start)`, the reading loop and the terminal have put on the queue so far. */
  ghost predicate Emitted(events: seq<Event>, chunks: seq<Chunk>, i: nat)
    requires i <= |chunks|
  {
    && |events| >= 1 && events[0].Start?
    && (forall j | 1 <= j < |events| :: events[j].Delta?)
    && Sent(events) == Deltas(chunks[..i])
  }

  /** What the reading loop leaves behind. */
  datatype Reading = Reading(
    events: seq<Event>, textParts: seq<string>,
    streaming: bool, fallbackConsumed: bool, terminalReceived: bool, overflowed: bool)

  /** The state of the reading loop after `i` chunks, the next one breaking the limit if `overflowed`. */
  ghost predicate ReadSoFar(r: Reading, chunks: seq<Chunk>, i: nat, limit: int) {
    && i <= |chunks|
    && Emitted(r.events, chunks, i) && r.textParts == Deltas(chunks[..i])
    && Fits(chunks, i, limit)
    && (r.overflowed ==> i < |chunks| && !Fits(chunks, i + 1, limit))
    && (!r.overflowed ==>
          && r.terminalReceived == AnyDone(chunks[..i])
          && r.fallbackConsumed == AnyFallback(chunks[..i])
          && r.streaming == !r.fallbackConsumed)
  }

  lemma {:induction false} FlagsGrow(chunks: seq<Chunk>, i: nat)
    requires i < |chunks|
    ensures AnyDone(chunks[..i + 1]) == (AnyDone(chunks[..i]) || chunks[i].done)
    ensures AnyFallback(chunks[..i + 1]) == (AnyFallback(chunks[..i]) || chunks[i].streamFallback)
  {
    assert chunks[..i + 1][i] == chunks[i];
    assert forall j | 0 <= j < i :: chunks[..i + 1][j] == chunks[..i][j];
  }

  /** One turn of the reading loop, on a chunk that keeps within the limit. */
  lemma {:induction false} ReadsOneMore(r: Reading, chunks: seq<Chunk>, i: nat, limit: int)
    requires ReadSoFar(r, chunks, i, limit) && !r.overflowed && i < |chunks| && Fits(chunks, i + 1, limit)
    ensures var chunk := chunks[i];
            var news := if chunk.delta != "" then [chunk.delta] else [];
            ReadSoFar(Reading(if chunk.delta != "" then r.events + [Delta(chunk.delta)] else r.events,
                              r.textParts + news,
                              r.streaming && !chunk.streamFallback, r.fallbackConsumed || chunk.streamFallback,
                              r.terminalReceived || chunk.done, false), chunks, i + 1, limit)
  {
    TakeOneMore(chunks, i);
    FlagsGrow(chunks, i);
    SentAppend(r.events, Delta(chunks[i].delta));
  }

  /** The `async for` over the stream, with the output limit checked at every delta. */
  method ReadStream(chunks: seq<Chunk>, limit: int) returns (r: Reading, read: nat)
    requires limit >= 0
    ensures ReadSoFar(r, chunks, read, limit)
    ensures !r.overflowed ==> read == |chunks|
  {
    var textParts: seq<string> := [];
    var responseChars := 0;
    var streaming, fallbackConsumed, terminalReceived, overflowed := true, false, false, false;
    var events := [Start];
    var i := 0;
    while i < |chunks| && !overflowed
      invariant ReadSoFar(Reading(events, textParts, streaming, fallbackConsumed, terminalReceived, overflowed),
                          chunks, i, limit)
      invariant !overflowed ==> responseChars == Chars(textParts)
      decreases |chunks| - i, !overflowed
    {
      var chunk := chunks[i];
      ghost var before := Reading(events, textParts, streaming, fallbackConsumed, terminalReceived, false);
      TakeOneMore(chunks, i);
      if chunk.done {
        terminalReceived := true;
      }
      if chunk.streamFallback {
        streaming := false;
        fallbackConsumed := true;
      }
      if chunk.delta != "" {
        responseChars := responseChars + |chunk.delta|;
      }
      if chunk.delta != "" && responseChars > limit {
        overflowed := true;
      } else {
        ReadsOneMore(before, chunks, i, limit);
        if chunk.delta != "" {
          textParts := textParts + [chunk.delta];
          events := events + [Delta(chunk.delta)];
        }
        i := i + 1;
      }
    }
    r := Reading(events, textParts, streaming, fallbackConsumed, terminalReceived, overflowed);
    read := i;
  }

  /**
    Runs one chat and returns everything it emits, in order; `read` is the number of upstream
    chunks it consumed in full.
  */
  method RunOne(maxTokens: int, chunks: seq<Chunk>, end: StreamEnd, completion: Completion)
    returns (events: seq<Event>, ghost read: nat)
    ensures IsScript(events)
    ensures ReadsExactly(chunks, read, Limit(maxTokens))
    ensures Sent(events) == Deltas(chunks[..read])
    ensures Chars(Sent(events)) <= Limit(maxTokens)
    ensures events[|events| - 1].Done? <==>
            Succeeds(chunks[..read], read == |chunks|, end, completion, Limit(maxTokens))
    ensures var last := events[|events| - 1];
            last.Done? && StreamAnswers(chunks[..read], read == |chunks|, end) ==>
              && last.result.response == Strip(Join(Sent(events)))
              && last.result.streaming == !AnyFallback(chunks[..read])
              && last.result.streamFallback == AnyFallback(chunks[..read])
    ensures var last := events[|events| - 1];
            last.Done? && !StreamAnswers(chunks[..read], read == |chunks|, end) ==>
              && AllBlank(Sent(events))
              && completion.Completed? && |completion.text| <= Limit(maxTokens)
              && last.result.response == Strip(completion.text)
              && !last.result.streaming && last.result.streamFallback
    ensures var last := events[|events| - 1];
            && (last.Done? ==> (last.result.ok <==> last.result.response != ""))
            && (last.Error? ==> !last.result.ok)
  {
    var limit := Limit(maxTokens);
    var r;
    r, read := ReadStream(chunks, limit);
    events := r.events;
    var textParts, streaming, streamFallback := r.textParts, r.streaming, r.fallbackConsumed;
    assert !r.overflowed ==> chunks[..read] == chunks;

    // What leaves the `async for`, and what the inner handler does with it.
    var raised := if r.overflowed then Raised(OVER_LIMIT) else end;
    var failed := false;
    if raised.Raised? {
      var failure := raised.failure;
      if !(failure.Llm? || failure.NotImplemented?) {
        failed := true;
      } else {
        var saidSomething := SaysSomething(textParts);
        if saidSomething || !CanFallBack(failure) {
          failed := true;
        } else {
          streamFallback := true;
        }
      }
    }
    assert r.overflowed ==> failed;
    assert failed <==> !(!r.overflowed && (end.Exhausted? || StreamRefused(chunks[..read], true, end)));

    if !failed {
      if streamFallback && !r.fallbackConsumed {
        streaming := false;
        if completion.Completed? && |completion.text| <= limit {
          textParts := [completion.text];
        } else {
          failed := true;
        }
      } else if !r.terminalReceived {
        failed := true;
      }
    }

    var text := Strip(Join(textParts));
    assert completion.Completed? ==> Join([completion.text]) == completion.text + Join([]) == completion.text;
    var last :=
      if failed then Error(Result(false, text, streaming, streamFallback))
      else Done(Result(text != "", text, streaming, streamFallback));
    SentAppend(events, last);
    events := events + [last];
  }

  /** `any(part.strip() for part in text_parts)` */
  method SaysSomething(parts: seq<string>) returns (r: bool)
    ensures r <==> !AllBlank(parts)
  {
    r := false;
    for j := 0 to |parts|
      invariant r <==> !AllBlank(parts[..j])
    {
      StripEmptyIffBlank(parts[j]);
      assert parts[..j + 1] == parts[..j] + [parts[j]];
      assert parts[..j + 1][j] == parts[j];
      if Strip(parts[j]) != "" {
        r := true;
      } else {
        assert AllBlank(parts[..j]) ==> AllBlank(parts[..j + 1]);
        if !AllBlank(parts[..j]) {
          var k :| 0 <= k < j && !Blank(parts[..j][k]);
          assert parts[..j + 1][k] == parts[..j][k];
        }
      }
    }
    assert parts[..|parts|] == parts;
  }
}
