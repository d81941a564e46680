/** Runtime-log event ids: formatting, parsing, and the cursor a reconnecting client
    resumes from. */
module EventIds {
  import opened Common
  import opened Text

  function IntText(n: int): string {
    if n < 0 then "-" + Decimal(-n) else Decimal(n)
  }

  function Prefix(scope: string, runId: string): string {
    "runtime-log:" + scope + ":" + runId + ":"
  }

  function EventId(scope: string, runId: string, offset: int): string {
    Prefix(scope, runId) + IntText(offset)
  }

  function Parse(scope: string, runId: string, value: string): Option<int> {
    var raw := Strip(value, IsSpace);
    var prefix := Prefix(scope, runId);
    if raw == "" || !StartsWith(raw, prefix) then None
    else
      var tail := raw[|prefix|..];
      if tail != "" && AllDigits(tail) then Some(ValueOf(tail)) else None
  }

  /** `_resolve_runtime_log_after_offset`: an explicit cursor wins, then the last event id,
      then "from the beginning". */
  function ResolveAfter(scope: string, runId: string, afterOffset: Option<int>, lastEventId: string): int {
    if afterOffset.Some? then afterOffset.value
    else
      var cursor := Parse(scope, runId, lastEventId);
      if cursor.Some? then cursor.value else -1
  }

  lemma EventIdTrimmed(scope: string, runId: string, offset: int)
    ensures Strip(EventId(scope, runId, offset), IsSpace) == EventId(scope, runId, offset)
  {
    var id := EventId(scope, runId, offset);
    assert id[0] == 'r';
    var n := if offset < 0 then -offset else offset;
    assert id[|id| - 1] == Decimal(n)[|Decimal(n)| - 1];
    StripTrims(id, IsSpace);
  }

  /** Ids round-trip for every offset that can be logged, whatever characters the run id
      holds; a negative offset never parses back. */
  lemma RoundTrip(scope: string, runId: string, offset: int)
    ensures Parse(scope, runId, EventId(scope, runId, offset)) == (if offset >= 0 then Some(offset) else None)
  {
    EventIdTrimmed(scope, runId, offset);
    var id, prefix := EventId(scope, runId, offset), Prefix(scope, runId);
    assert id[..|prefix|] == prefix && id[|prefix|..] == IntText(offset);
    if offset >= 0 { DecimalValue(offset); } else { assert IntText(offset)[0] == '-'; }
  }

  /** Which texts are ids of a run: its prefix and decimal digits, within white space; the digits are the
      offset. */
  lemma ParseIff(scope: string, runId: string, value: string, offset: nat)
    ensures Parse(scope, runId, value) == Some(offset) <==>
              exists digits :: digits != "" && AllDigits(digits) && ValueOf(digits) == offset
                && Strip(value, IsSpace) == "runtime-log:" + scope + ":" + runId + ":" + digits
  {
    var raw, prefix := Strip(value, IsSpace), Prefix(scope, runId);
    assert prefix == "runtime-log:" + scope + ":" + runId + ":";
    if Parse(scope, runId, value) == Some(offset) {
      var digits := raw[|prefix|..];
      assert raw == prefix + digits;
    }
    if digits :| digits != "" && AllDigits(digits) && ValueOf(digits) == offset && raw == prefix + digits {
      assert raw[..|prefix|] == prefix && raw[|prefix|..] == digits;
    }
  }

  /** An id is accepted by its own run only. The two scopes in use, "task_run" and "turn_run",
      have the same length; with colons in run ids that is what keeps prefixes apart. */
  lemma IdsNeverCrossRuns(scope: string, runId: string, otherScope: string, otherRunId: string, offset: nat)
    requires |scope| == |otherScope|
    ensures Parse(otherScope, otherRunId, EventId(scope, runId, offset)).Some?
            <==> scope == otherScope && runId == otherRunId
  {
    RoundTrip(scope, runId, offset);
    EventIdTrimmed(scope, runId, offset);
    var id, own, other := EventId(scope, runId, offset), Prefix(scope, runId), Prefix(otherScope, otherRunId);
    if Parse(otherScope, otherRunId, id).Some? {
      var tail := id[|other|..];
      assert id == other + tail;
      PrefixBound(own, Decimal(offset), other, tail);
      PrefixBound(other, tail, own, Decimal(offset));
      assert own == id[..|own|] == other;
      PrefixInjective(scope, runId, otherScope, otherRunId);
    }
  }

  /** Of two ways to split an id into a prefix ending in a colon and digits, neither prefix is
      the longer one. */
  lemma PrefixBound(p: string, digits: string, q: string, tail: string)
    requires p + digits == q + tail && AllDigits(digits)
    requires q != "" && q[|q| - 1] == ':'
    ensures |q| <= |p|
  {
    var id := p + digits;
    assert forall i :: |p| <= i < |id| ==> IsDigit(id[i]);
    assert id[|q| - 1] == (q + tail)[|q| - 1] == ':';
  }

  lemma PrefixInjective(scope: string, runId: string, otherScope: string, otherRunId: string)
    requires |scope| == |otherScope| && Prefix(scope, runId) == Prefix(otherScope, otherRunId)
    ensures scope == otherScope && runId == otherRunId
  {
    var p, q := Prefix(scope, runId), Prefix(otherScope, otherRunId);
    var h := |"runtime-log:"|;
    assert |runId| == |otherRunId|;
    assert p[h..h + |scope|] == scope && q[h..h + |scope|] == otherScope;
    assert p[h + |scope| + 1..|p| - 1] == runId && q[h + |scope| + 1..|q| - 1] == otherRunId;
  }

  /** A client that reconnects with the last id it received, and no explicit cursor, resumes
      exactly at that offset. */
  lemma ResumesAtLastId(scope: string, runId: string, offset: nat)
    ensures ResolveAfter(scope, runId, None, EventId(scope, runId, offset)) == offset
  {
    RoundTrip(scope, runId, offset);
  }

  /** Where a request starts: at its explicit cursor if it has one, whatever its last event id; else
      behind the event its id names in this run; an id of another run counts for nothing. */
  lemma ResumesFrom(scope: string, runId: string, explicit: Option<int>, otherScope: string, otherRunId: string, offset: nat)
    requires |scope| == |otherScope|
    ensures ResolveAfter(scope, runId, explicit, EventId(otherScope, otherRunId, offset))
            == match explicit
               case Some(after) => after
               case None => if scope == otherScope && runId == otherRunId then offset else -1
  {
    IdsNeverCrossRuns(otherScope, otherRunId, scope, runId, offset);
    RoundTrip(scope, runId, offset);
  }

  // ---- ids of the chat stream ----

  function StreamPrefix(streamRunId: string, eventLogId: string): string {
    streamRunId + ":" + eventLogId + ":"
  }

  function StreamEventId(streamRunId: string, eventLogId: string, offset: int): string {
    StreamPrefix(streamRunId, eventLogId) + IntText(offset)
  }

  /** `parse_stream_event_id` for a known run and log; bare digits are accepted too. */
  function ParseStream(streamRunId: string, eventLogId: string, value: string): Option<int> {
    var raw := Strip(value, IsSpace);
    var prefix := StreamPrefix(streamRunId, eventLogId);
    if raw == "" then None
    else if StartsWith(raw, prefix) then
      var tail := raw[|prefix|..];
      if tail != "" && AllDigits(tail) then Some(ValueOf(tail)) else None
    else if AllDigits(raw) then Some(ValueOf(raw))
    else None
  }

  /** Which texts are ids of a run's log: the two names and decimal digits, each followed by a colon, or
      digits alone, within white space; the digits are the offset. */
  lemma ParseStreamIff(streamRunId: string, eventLogId: string, value: string, offset: nat)
    ensures ParseStream(streamRunId, eventLogId, value) == Some(offset) <==>
              exists digits :: digits != "" && AllDigits(digits) && ValueOf(digits) == offset
                && (Strip(value, IsSpace) == streamRunId + ":" + eventLogId + ":" + digits || Strip(value, IsSpace) == digits)
  {
    var raw, prefix := Strip(value, IsSpace), StreamPrefix(streamRunId, eventLogId);
    assert prefix == streamRunId + ":" + eventLogId + ":";
    assert prefix[|streamRunId|] == ':' && !IsDigit(':');
    if ParseStream(streamRunId, eventLogId, value) == Some(offset) {
      var digits := if StartsWith(raw, prefix) then raw[|prefix|..] else raw;
      if StartsWith(raw, prefix) { assert raw == prefix + digits; }
    }
    if digits :| digits != "" && AllDigits(digits) && ValueOf(digits) == offset && (raw == prefix + digits || raw == digits) {
      if raw == prefix + digits {
        assert raw[..|prefix|] == prefix && raw[|prefix|..] == digits;
      } else if StartsWith(raw, prefix) {
        assert raw[|streamRunId|] == raw[..|prefix|][|streamRunId|];
      }
    }
  }

  /** `_resolve_subscription`: the larger of the explicit cursor and the last event id. */
  function ResolveSubscription(streamRunId: string, eventLogId: string, afterOffset: Option<int>, lastEventId: string): int {
    var after := if afterOffset.Some? then afterOffset.value else -1;
    var cursor := ParseStream(streamRunId, eventLogId, lastEventId);
    if cursor.Some? then Max(after, cursor.value) else after
  }

  /** Stream ids round-trip exactly for run ids that do not begin with white space, which the
      parser strips. */
  lemma StreamRoundTrip(streamRunId: string, eventLogId: string, offset: nat)
    requires streamRunId != "" && eventLogId != ""
    ensures ParseStream(streamRunId, eventLogId, StreamEventId(streamRunId, eventLogId, offset))
            == (if IsSpace(streamRunId[0]) then None else Some(offset))
  {
    if IsSpace(streamRunId[0]) {
      SpacedIdIsLost(streamRunId, eventLogId, offset);
    } else {
      var id, prefix := StreamEventId(streamRunId, eventLogId, offset), StreamPrefix(streamRunId, eventLogId);
      assert id[..|prefix|] == prefix && id[|prefix|..] == Decimal(offset);
      assert id[0] == streamRunId[0] && IsDigit(id[|id| - 1]);
      StripTrims(id, IsSpace);
      DecimalValue(offset);
    }
  }

  /** Where a live subscription starts: behind its explicit cursor or the event its id names,
      whichever is further; the id counts unless the run id begins with white space. */
  lemma SubscribesFrom(streamRunId: string, eventLogId: string, explicit: Option<int>, offset: nat)
    requires streamRunId != "" && eventLogId != ""
    ensures var cursor := match explicit case Some(after) => after case None => -1;
            ResolveSubscription(streamRunId, eventLogId, explicit, StreamEventId(streamRunId, eventLogId, offset))
            == if !IsSpace(streamRunId[0]) && offset > cursor then offset else cursor
  {
    StreamRoundTrip(streamRunId, eventLogId, offset);
  }

  lemma SpacedIdIsLost(streamRunId: string, eventLogId: string, offset: nat)
    requires streamRunId != "" && IsSpace(streamRunId[0])
    ensures ParseStream(streamRunId, eventLogId, StreamEventId(streamRunId, eventLogId, offset)) == None
  {
    var id, prefix := StreamEventId(streamRunId, eventLogId, offset), StreamPrefix(streamRunId, eventLogId);
    assert id[|prefix| - 1] == ':';
    ColonSurvives(id, |prefix| - 1);
    StripTrims(id, IsSpace);
    var raw := Strip(id, IsSpace);
    assert !IsSpace(raw[0]) && prefix[0] == streamRunId[0];
    assert !StartsWith(raw, prefix);
    assert !AllDigits(raw);
  }

  /** Stripping white space keeps a colon. */
  lemma ColonSurvives(s: string, k: nat)
    requires k < |s| && s[k] == ':'
    ensures ':' in Strip(s, IsSpace)
  {
    LStripKeeps(s, k);
    var l := LStrip(s, IsSpace);
    var j :| 0 <= j < |l| && l[j] == ':';
    RStripKeeps(l, j);
  }

  lemma {:induction false} LStripKeeps(s: string, k: nat)
    requires k < |s| && s[k] == ':'
    ensures ':' in LStrip(s, IsSpace)
    decreases |s|
  {
    if !IsSpace(s[0]) {
    } else {
      LStripKeeps(s[1..], k - 1);
    }
  }

  lemma {:induction false} RStripKeeps(s: string, k: nat)
    requires k < |s| && s[k] == ':'
    ensures ':' in RStrip(s, IsSpace)
    decreases |s|
  {
    if !IsSpace(s[|s| - 1]) {
    } else {
      RStripKeeps(s[..|s| - 1], k);
    }
  }
}
