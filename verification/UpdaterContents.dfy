/**
  What one call and one line leave in a job, said of its members: the steps and log lines they
  add, the times those measure, and the phase clock.
*/
module UpdaterContents {
  import opened Common
  import opened UpdaterJob
  import Text

  /** `ms` is the time from `since` to `now` in whole milliseconds, rounded down, and never negative. */
  ghost predicate Spans(since: real, now: real, ms: nat) {
    if now < since then ms == 0
    else ms as real <= (now - since) * 1000.0 < ms as real + 1.0
  }

  /** `ms` is how long the present phase of `j` has lasted; without a phase clock the job's start counts. */
  ghost predicate Lasted(j: Job, now: real, ms: nat) {
    && (j.phaseStartedAt != 0.0 ==> Spans(j.phaseStartedAt, now, ms))
    && (j.phaseStartedAt == 0.0 && j.startedAt != 0 ==> Spans(j.startedAt as real, now, ms))
    && (j.phaseStartedAt == 0.0 && j.startedAt == 0 ==> ms == 0)
  }

  /** `after` is `before` with its present phase recorded as a step, and a line that says so. */
  ghost predicate Notes(before: Job, after: Job, now: real) {
    exists ms: nat ::
      && Lasted(before, now, ms)
      && after.steps == before.steps + [Step(before.phase, ms, before.detail)]
      && after.logs == before.logs + ["[step] " + before.phase + " 用时 " + Text.Decimal(ms) + "ms"]
  }

  lemma {:induction false} NoTrailingSpace(line: string)
    ensures Text.StripRight(line + "ms") == line + "ms"
  {
    var text := line + "ms";
    assert text[|text| - 1] == 's';
  }

  lemma {:induction false} RecordedNotes(j: Job, now: real)
    ensures Notes(j, Recorded(Unbounded, j, now), now)
  {
    var ms := Millis(PhaseStart(j, now), now);
    var elapsed := (now - PhaseStart(j, now)) * 1000.0;
    assert elapsed.Floor as real <= elapsed < elapsed.Floor as real + 1.0;
    assert Lasted(j, now, ms);
    NoTrailingSpace("[step] " + j.phase + " 用时 " + Text.Decimal(ms));
  }

  predicate Moves(j: Job, u: Update) {
    u.phase.Some? && u.phase.value != j.phase
  }

  /** The phase of the last step recorded, "" if there is none. */
  function LastPhase(j: Job): string {
    if j.steps == [] then "" else j.steps[|j.steps| - 1].phase
  }

  /** Leaving a phase that has a name notes it; the phase clock then shows the time of the call. */
  ghost predicate Leaves(j: Job, u: Update, now: real, left: Job) {
    && left.phaseStartedAt == (if Moves(j, u) then now else j.phaseStartedAt)
    && (if Moves(j, u) && j.phase != "" then Notes(j, left, now) else left.steps == j.steps && left.logs == j.logs)
  }

  /** The members a call names are taken over; it may empty the log, and touches nothing else. */
  ghost predicate Takes(j: Job, u: Update, left: Job, merged: Job) {
    && (if u.status.Some? then merged.status == u.status.value else merged.status == j.status)
    && (if u.phase.Some? then merged.phase == u.phase.value else merged.phase == j.phase)
    && (if u.detail.Some? then merged.detail == u.detail.value else merged.detail == j.detail)
    && (if u.startedAt.Some? then merged.startedAt == u.startedAt.value else merged.startedAt == j.startedAt)
    && (if u.clearLogs then merged.logs == [] else merged.logs == left.logs)
    && merged.steps == left.steps && merged.phaseStartedAt == left.phaseStartedAt
  }

  /** A call that closes the job notes its phase, unless it has none or the last step is of that phase. */
  ghost predicate Closes(u: Update, now: real, merged: Job, after: Job) {
    && after == merged.(steps := after.steps, logs := after.logs)
    && if (u.status == Some(Succeeded) || u.status == Some(Failed))
          && merged.phase != "" && merged.phase != LastPhase(merged)
       then Notes(merged, after, now)
       else after.steps == merged.steps && after.logs == merged.logs
  }

  /** One call on any job: it leaves a phase, takes over what it names, and closes. */
  lemma {:induction false} CallMeans(j: Job, u: Update, now: real) returns (left: Job, merged: Job)
    ensures Leaves(j, u, now, left) && Takes(j, u, left, merged)
    ensures Closes(u, now, merged, SetJob(Unbounded, j, u, now))
  {
    left := PhaseLeft(Unbounded, j, u, now);
    merged := Merged(left, u);
    RecordedNotes(j, now);
    RecordedNotes(merged, now);
  }

  /** One line: it ends the log, without the white space at its end, and nothing else changes. */
  lemma {:induction false} LineMeans(j: Job, text: string) returns (end: nat)
    ensures var after := Applied(Unbounded, j, Line(text));
            && end <= |text| && Text.Blank(text[end..]) && (end > 0 ==> !Text.IsSpace(text[end - 1]))
            && after.logs == j.logs + [text[..end]] && after == j.(logs := after.logs)
  {
    end := Text.StripRightSplits(text);
  }

  // ---- progress lines ----

  ghost predicate NoBar(s: string) {
    forall i | 0 <= i < |s| :: s[i] != '|'
  }

  ghost predicate LineEnd(s: string) {
    forall i | 0 <= i < |s| :: s[i] == '\r' || s[i] == '\n'
  }

  /** What stands between the marker and the line end: a number, a phase and a detail with bars between. */
  ghost predicate Fields(body: string, number: string, phase: string, detail: string) {
    && body == number + "|" + (phase + "|" + detail)
    && NoBar(number) && NoBar(phase)
    && (detail != "" ==> detail[|detail| - 1] != '\r' && detail[|detail| - 1] != '\n')
  }

  ghost predicate Reports(line: string, number: string, phase: string, detail: string, end: string) {
    exists body :: line == PROGRESS_PREFIX + (body + end) && Fields(body, number, phase, detail) && LineEnd(end)
  }

  lemma {:induction false} BarFound(s: string, rest: string)
    requires NoBar(s)
    ensures Bar(s + "|" + rest) == |s|
  {
    if s == "" {
      assert (s + "|" + rest)[0] == '|';
    } else {
      assert (s + "|" + rest)[0] == s[0] && (s + "|" + rest)[1..] == s[1..] + "|" + rest;
      BarFound(s[1..], rest);
    }
  }

  lemma {:induction false} LineEndDropped(s: string, end: string)
    requires LineEnd(end) && s != "" && s[|s| - 1] != '\r' && s[|s| - 1] != '\n'
    ensures DropLineEnd(s + end) == s
  {
    var text := s + end;
    if end == "" {
      assert text == s;
    } else {
      assert text[|text| - 1] == end[|end| - 1] && text[..|text| - 1] == s + end[..|end| - 1];
      LineEndDropped(s, end[..|end| - 1]);
    }
  }

  /** Clamped to a percentage. */
  ghost predicate Percent(n: int, percent: int) {
    && (n < 0 ==> percent == 0) && (n > 100 ==> percent == 100) && (0 <= n <= 100 ==> percent == n)
  }

  lemma {:induction false} FieldsFound(body: string, number: string, phase: string, detail: string)
    requires Fields(body, number, phase, detail)
    ensures body != "" && body[|body| - 1] != '\r' && body[|body| - 1] != '\n'
    ensures Bar(body) == |number| && body[..|number|] == number && body[|number| + 1..] == phase + "|" + detail
  {
    BarFound(number, phase + "|" + detail);
  }

  lemma {:induction false} Cut(a: string, c: char, b: string)
    ensures (a + [c] + b)[..|a|] == a && (a + [c] + b)[|a| + 1..] == b
  {
  }

  /** The part of the reading after the marker and the line end are cut off. */
  function ReadBody(toInt: string -> Option<int>, body: string): Option<Progress> {
    var a := Bar(body);
    if a == |body| then None
    else
      var rest := body[a + 1..];
      var b := Bar(rest);
      if b == |rest| || toInt(body[..a]).None? then None
      else
        var n := toInt(body[..a]).value;
        Some(Progress(if n < 0 then 0 else if n > 100 then 100 else n,
                      if b == 0 then "更新中" else rest[..b], rest[b + 1..]))
  }

  lemma {:induction false} ReadsBody(toInt: string -> Option<int>, line: string)
    ensures ParseProgress(toInt, line) ==
            if PROGRESS_PREFIX <= line then ReadBody(toInt, DropLineEnd(line[|PROGRESS_PREFIX|..])) else None
  {
  }

  lemma {:induction false} BodyRead(toInt: string -> Option<int>, body: string,
                                    number: string, phase: string, detail: string)
    requires Fields(body, number, phase, detail)
    ensures var r := ReadBody(toInt, body);
            match toInt(number)
            case None => r == None
            case Some(n) =>
              && r.Some? && Percent(n, r.value.percent) && r.value.detail == detail
              && r.value.phase == if phase == "" then "更新中" else phase
  {
    FieldsFound(body, number, phase, detail);
    BarFound(phase, detail);
    Cut(phase, '|', detail);
  }

  lemma {:induction false} AfterPrefix(prefix: string, s: string)
    ensures prefix <= prefix + s && (prefix + s)[|prefix|..] == s
  {
  }

  /** A line that reports progress is read as what it reports; an unnamed phase gets a name. */
  lemma {:induction false} ProgressRead(toInt: string -> Option<int>, line: string,
                                        number: string, phase: string, detail: string, end: string)
    requires Reports(line, number, phase, detail, end)
    ensures var r := ParseProgress(toInt, line);
            match toInt(number)
            case None => r == None
            case Some(n) =>
              && r.Some? && Percent(n, r.value.percent) && r.value.detail == detail
              && r.value.phase == if phase == "" then "更新中" else phase
  {
    var body :| line == PROGRESS_PREFIX + (body + end) && Fields(body, number, phase, detail) && LineEnd(end);
    AfterPrefix(PROGRESS_PREFIX, body + end);
    ReadsBody(toInt, line);
    FieldsFound(body, number, phase, detail);
    LineEndDropped(body, end);
    BodyRead(toInt, body, number, phase, detail);
  }

  lemma {:induction false} LineEndSplit(s: string) returns (k: nat)
    ensures k <= |s| && DropLineEnd(s) == s[..k] && LineEnd(s[k..])
    ensures k > 0 ==> s[k - 1] != '\r' && s[k - 1] != '\n'
  {
    if s != "" && s[|s| - 1] in {'\r', '\n'} {
      k := LineEndSplit(s[..|s| - 1]);
      assert s[k..] == s[..|s| - 1][k..] + [s[|s| - 1]];
      assert s[..|s| - 1][..k] == s[..k];
    } else {
      k := |s|;
    }
  }

  lemma {:induction false} BarSplits(s: string)
    requires Bar(s) < |s|
    ensures s == s[..Bar(s)] + "|" + s[Bar(s) + 1..] && NoBar(s[..Bar(s)])
  {
  }

  lemma {:induction false} SameLast(a: string, b: string)
    ensures b != "" ==> (a + b)[|a + b| - 1] == b[|b| - 1]
  {
  }

  /** A text with two bars is three fields. */
  lemma {:induction false} FieldsSplit(body: string, number: string, rest: string, phase: string, detail: string)
    requires body == number + "|" + rest && rest == phase + "|" + detail && NoBar(number) && NoBar(phase)
    requires body[|body| - 1] != '\r' && body[|body| - 1] != '\n'
    ensures Fields(body, number, phase, detail)
  {
    SameLast(number + "|", rest);
    SameLast(phase + "|", detail);
  }

  lemma {:induction false} BodySplit(toInt: string -> Option<int>, body: string)
    returns (number: string, phase: string, detail: string)
    requires ReadBody(toInt, body).Some?
    requires body != "" ==> body[|body| - 1] != '\r' && body[|body| - 1] != '\n'
    ensures Fields(body, number, phase, detail) && toInt(number).Some?
  {
    var rest := body[Bar(body) + 1..];
    number, phase, detail := body[..Bar(body)], rest[..Bar(rest)], rest[Bar(rest) + 1..];
    BarSplits(body);
    BarSplits(rest);
    FieldsSplit(body, number, rest, phase, detail);
  }

  lemma {:induction false} PrefixSplits(prefix: string, s: string, k: nat)
    requires prefix <= s && k <= |s[|prefix|..]|
    ensures s == prefix + (s[|prefix|..][..k] + s[|prefix|..][k..])
  {
  }

  /** What is left of a line without its marker and its line end. */
  lemma {:induction false} LineSplit(prefix: string, line: string) returns (body: string, end: string)
    requires prefix <= line
    ensures line == prefix + (body + end) && LineEnd(end) && body == DropLineEnd(line[|prefix|..])
    ensures body != "" ==> body[|body| - 1] != '\r' && body[|body| - 1] != '\n'
  {
    var tail := line[|prefix|..];
    var k := LineEndSplit(tail);
    body, end := tail[..k], tail[k..];
    PrefixSplits(prefix, line, k);
  }

  /** And only such lines are read as progress. */
  lemma {:induction false} OnlyProgressRead(toInt: string -> Option<int>, line: string)
    returns (number: string, phase: string, detail: string, end: string)
    requires ParseProgress(toInt, line).Some?
    ensures Reports(line, number, phase, detail, end) && toInt(number).Some?
  {
    ReadsBody(toInt, line);
    var body;
    body, end := LineSplit(PROGRESS_PREFIX, line);
    number, phase, detail := BodySplit(toInt, body);
  }
}
