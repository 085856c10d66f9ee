/** The transcript replay job (backend/app/jobs/transcript_replay_job.rb):
    feeds a recorded meeting into an incident one message at a time, spread
    over one minute, running the suggestion engine after each message.

    `sleep` advances a logical clock `now`; what the job does is recorded in
    a trace of events. */
module TranscriptReplay {
  import opened Wrappers
  import opened SuggestionModel
  import opened Records
  import opened SuggestionEngine

  /** The length of a replay in seconds. */
  const TotalDuration: real := 60.0

  /** One element of `meeting_transcript`, as `msg['text']` and
      `msg['speaker']` read it. */
  datatype ReplayItem = ReplayItem(text: Option<string>, speaker: Option<string>)

  /** What the job does, in order. */
  datatype Event =
    | Waited(seconds: real)             // `sleep(interval)`
    | Ingested(at: real, message: Message)  // `TranscriptMessage.create!`
    | Analysed(at: real, messageId: nat)    // `SuggestionEngine.new(tm).call` returned or raised

  /** The exceptions that escape `perform`. */
  datatype JobError =
    | MissingTranscript                 // `nil.size` when the key is absent
    | EngineFailed(cause: EngineError)  // raised by the engine, not rescued

  /** `total_duration / messages.size`. With no messages Ruby computes
      Infinity, which is never used; the model uses 0. */
  function Interval(n: nat): (r: real)
    ensures n > 0 ==> r * n as real == TotalDuration && r > 0.0
  {
    if n == 0 then 0.0 else TotalDuration / n as real
  }

  /** The state a replay runs through: the store, the incident object's
      loaded `suggestions` list, the clock, the trace, and the exception
      that ended it, if any. */
  datatype Replay = Replay(st: StoreState, loaded: Option<seq<SuggestionRecord>>, now: real,
                           trace: seq<Event>, error: Option<JobError>)

  /** A run of the engine on a stored message, as a function of the store
      and of the incident object's loaded list. */
  type Analyser = (StoreState, Option<seq<SuggestionRecord>>, Message) -> Progress

  /** `SuggestionEngine.new(tm).call` in the environment `env`. */
  function EngineOf(env: Env): Analyser {
    (st, loaded, m) => EngineCall(st, loaded, m, env)
  }

  /** Iteration `idx` of `each_with_index`: wait unless first, create the
      message, run the engine on it. */
  function Step(r: Replay, incident: nat, idx: nat, item: ReplayItem, interval: real, analyse: Analyser): Replay {
    var now := if idx > 0 then r.now + interval else r.now;
    var waits := if idx > 0 then [Waited(interval)] else [];
    var m := Message(r.st.clock, incident, item.text, item.speaker, r.st.clock);
    var p := analyse(AddMessage(r.st, incident, item.text, item.speaker), r.loaded, m);
    Replay(p.st, p.loaded, now, r.trace + waits + [Ingested(now, m), Analysed(now, m.id)],
           if p.error.Some? then Some(EngineFailed(p.error.value)) else None)
  }

  /** The loop over `items`, stopping at the first exception. */
  function Steps(r0: Replay, incident: nat, items: seq<ReplayItem>, interval: real, analyse: Analyser): Replay
    decreases |items|
  {
    if |items| == 0 then r0
    else
      var r := Steps(r0, incident, items[..|items| - 1], interval, analyse);
      if r.error.Some? then r else Step(r, incident, |items| - 1, items[|items| - 1], interval, analyse)
  }

  /** `perform(incident_id)` once the transcript file has been read:
      `meeting` is its `meeting_transcript` entry, None when absent. The
      incident object is freshly found, its association not loaded. */
  function Job(st: StoreState, incident: nat, meeting: Option<seq<ReplayItem>>, env: Env,
               now: real, trace: seq<Event>): Replay
  {
    match meeting
    case None => Replay(st, None, now, trace, Some(MissingTranscript))
    case Some(items) => Steps(Replay(st, None, now, trace, None), incident, items, Interval(|items|), EngineOf(env))
  }

  // ---------------------------------------------------------------------
  // Properties
  // ---------------------------------------------------------------------

  /** A missing `meeting_transcript` raises before anything is created. */
  lemma MissingTranscriptFails(st: StoreState, incident: nat, env: Env, now: real, trace: seq<Event>)
    ensures var r := Job(st, incident, None, env, now, trace);
      r.st == st && r.now == now && r.trace == trace && r.error == Some(MissingTranscript)
  {
  }

  /** An empty transcript creates nothing, waits for nothing and runs no
      engine. */
  lemma EmptyTranscriptDoesNothing(st: StoreState, incident: nat, env: Env, now: real, trace: seq<Event>)
    ensures var r := Job(st, incident, Some([]), env, now, trace);
      r.st == st && r.now == now && r.trace == trace && r.error.None?
  {
  }

  /** An analyser that leaves the messages table alone. */
  ghost predicate KeepsMessages(analyse: Analyser) {
    forall st, loaded, m :: analyse(st, loaded, m).st.messages == st.messages
  }

  /** The engine leaves the messages table alone. */
  lemma EngineKeepsMessages(env: Env)
    ensures KeepsMessages(EngineOf(env))
  {
    forall st, loaded, m
      ensures EngineOf(env)(st, loaded, m).st.messages == st.messages
    {
      CallAppends(st, loaded, m, env);
    }
  }

  /** `i` waits of `interval` seconds, one after another. */
  function Offset(i: nat, interval: real): real {
    if i == 0 then 0.0 else Offset(i - 1, interval) + interval
  }

  lemma {:induction false} OffsetIsProduct(i: nat, interval: real)
    ensures Offset(i, interval) == i as real * interval
  {
    if i > 0 {
      OffsetIsProduct(i - 1, interval);
      assert (i - 1) as real * interval + interval == i as real * interval;
    }
  }

  /** After a replay of `items` that raised nothing, starting from `r0`:
      item `i` was stored as a message of the incident with that item's text
      and speaker, appended in input order; it was created at `i` intervals
      after the start, right after the wait that precedes it, and the engine
      ran on it before the next wait. */
  predicate Scheduled(r0: Replay, r: Replay, incident: nat, items: seq<ReplayItem>, interval: real) {
    var t := |r0.trace|;
    var n0 := |r0.st.messages|;
    var n := |items|;
    |r.trace| == t + (if n == 0 then 0 else 3 * n - 1) && r.trace[..t] == r0.trace &&
    |r.st.messages| == n0 + n && r.st.messages[..n0] == r0.st.messages &&
    r.now == r0.now + (if n == 0 then 0.0 else Offset(n - 1, interval)) &&
    forall i :: 0 <= i < n ==> Slot(r0, r, incident, items, interval, i)
  }

  /** Item `i` of a replay that raised nothing: its message, created at its
      offset right after its wait, then analysed. */
  predicate Slot(r0: Replay, r: Replay, incident: nat, items: seq<ReplayItem>, interval: real, i: nat)
    requires i < |items| && |r0.st.messages| + |items| <= |r.st.messages| && |r0.trace| + 3 * |items| - 1 <= |r.trace|
  {
    var t := |r0.trace|;
    var m := r.st.messages[|r0.st.messages| + i];
    var at := r0.now + Offset(i, interval);
    m.incidentId == incident && m.content == items[i].text && m.speaker == items[i].speaker &&
    r.trace[t + 3 * i] == Ingested(at, m) && r.trace[t + 3 * i + 1] == Analysed(at, m.id) &&
    (i > 0 ==> r.trace[t + 3 * i - 1] == Waited(interval))
  }

  /** What one iteration does: the message appended, the clock advanced
      by one interval unless first, the wait, creation and engine run
      recorded. */
  lemma StepShape(r: Replay, incident: nat, idx: nat, item: ReplayItem, interval: real, analyse: Analyser)
    requires KeepsMessages(analyse)
    ensures var r' := Step(r, incident, idx, item, interval, analyse);
      var m := Message(r.st.clock, incident, item.text, item.speaker, r.st.clock);
      var now := if idx > 0 then r.now + interval else r.now;
      r'.st.messages == r.st.messages + [m] && r'.now == now &&
      r'.trace == r.trace + (if idx > 0 then [Waited(interval)] else []) + [Ingested(now, m), Analysed(now, m.id)]
  {
    var m := Message(r.st.clock, incident, item.text, item.speaker, r.st.clock);
    assert analyse(AddMessage(r.st, incident, item.text, item.speaker), r.loaded, m).st.messages
      == AddMessage(r.st, incident, item.text, item.speaker).messages;
  }

  /** A replay state that has the message appended, the clock and trace
      advanced, and the analyser's outcome is the one `Step` gives. */
  lemma StepOf(r: Replay, incident: nat, idx: nat, item: ReplayItem, interval: real, analyse: Analyser, r': Replay)
    requires var now := if idx > 0 then r.now + interval else r.now;
      var m := Message(r.st.clock, incident, item.text, item.speaker, r.st.clock);
      var p := analyse(AddMessage(r.st, incident, item.text, item.speaker), r.loaded, m);
      r'.st == p.st && r'.loaded == p.loaded && r'.now == now &&
      r'.trace == r.trace + (if idx > 0 then [Waited(interval)] else []) + [Ingested(now, m), Analysed(now, m.id)] &&
      r'.error == if p.error.Some? then Some(EngineFailed(p.error.value)) else None
    ensures Step(r, incident, idx, item, interval, analyse) == r'
  {
    if idx == 0 {
      assert r.trace + [] == r.trace;
    }
  }

  lemma ScheduledExtend(r0: Replay, r: Replay, r': Replay, incident: nat, items: seq<ReplayItem>, item: ReplayItem,
                        interval: real, m: Message)
    requires Scheduled(r0, r, incident, items, interval)
    requires m.incidentId == incident && m.content == item.text && m.speaker == item.speaker
    requires var now := if |items| > 0 then r.now + interval else r.now;
      r'.st.messages == r.st.messages + [m] && r'.now == now &&
      r'.trace == r.trace + (if |items| > 0 then [Waited(interval)] else []) + [Ingested(now, m), Analysed(now, m.id)]
    ensures Scheduled(r0, r', incident, items + [item], interval)
  {
    var n := |items|;
    var t := |r0.trace|;
    var n0 := |r0.st.messages|;
    var items' := items + [item];
    forall i | 0 <= i < n + 1
      ensures Slot(r0, r', incident, items', interval, i)
    {
      if i < n {
        assert Slot(r0, r, incident, items, interval, i);
        assert r'.st.messages[n0 + i] == r.st.messages[n0 + i];
        assert r'.trace[t + 3 * i] == r.trace[t + 3 * i];
        assert r'.trace[t + 3 * i + 1] == r.trace[t + 3 * i + 1];
        assert i > 0 ==> r'.trace[t + 3 * i - 1] == r.trace[t + 3 * i - 1];
        assert items'[i] == items[i];
      } else {
        var now := if n > 0 then r.now + interval else r.now;
        assert now == r0.now + Offset(n, interval);
        assert r'.st.messages[n0 + n] == m;
        assert r'.trace[t + 3 * n] == Ingested(now, m);
        assert r'.trace[t + 3 * n + 1] == Analysed(now, m.id);
        assert n > 0 ==> r'.trace[t + 3 * n - 1] == Waited(interval);
      }
    }
    assert r'.trace[..t] == r0.trace;
    assert r'.st.messages[..n0] == r0.st.messages;
  }

  /** The schedule of a replay that raised nothing. */
  lemma {:induction false} StepsScheduled(r0: Replay, incident: nat, items: seq<ReplayItem>, interval: real, analyse: Analyser)
    requires KeepsMessages(analyse)
    requires r0.error.None?
    requires Steps(r0, incident, items, interval, analyse).error.None?
    ensures Scheduled(r0, Steps(r0, incident, items, interval, analyse), incident, items, interval)
    decreases |items|
  {
    if |items| == 0 {
      assert r0.trace[..|r0.trace|] == r0.trace;
      assert r0.st.messages[..|r0.st.messages|] == r0.st.messages;
    } else {
      var front := items[..|items| - 1];
      var r := Steps(r0, incident, front, interval, analyse);
      var item := items[|items| - 1];
      StepsScheduled(r0, incident, front, interval, analyse);
      StepShape(r, incident, |front|, item, interval, analyse);
      ScheduledExtend(r0, r, Step(r, incident, |front|, item, interval, analyse), incident, front, item, interval,
                      Message(r.st.clock, incident, item.text, item.speaker, r.st.clock));
      assert front + [item] == items;
    }
  }

  /** A replay of N > 0 messages that raised nothing: exactly N messages
      created in input order, message i at i·60/N seconds after the start,
      each analysed before the next wait, and N-1 waits of 60/N seconds. */
  lemma ReplaySchedule(st: StoreState, incident: nat, items: seq<ReplayItem>, env: Env, now: real, trace: seq<Event>)
    requires Job(st, incident, Some(items), env, now, trace).error.None?
    ensures Scheduled(Replay(st, None, now, trace, None), Job(st, incident, Some(items), env, now, trace),
                      incident, items, Interval(|items|))
  {
    EngineKeepsMessages(env);
    StepsScheduled(Replay(st, None, now, trace, None), incident, items, Interval(|items|), EngineOf(env));
  }

  /** A clock N-1 waits of 60/N seconds past `now` stands one interval short
      of a minute past it. */
  lemma WaitsShortOfAMinute(n: nat, now: real, end: real)
    requires n > 0
    requires end == now + Offset(n - 1, Interval(n))
    ensures end == now + (n - 1) as real * Interval(n)
    ensures end == now + TotalDuration - Interval(n)
    ensures end < now + TotalDuration
  {
    var d := Interval(n);
    OffsetIsProduct(n - 1, d);
    assert (n - 1) as real * d == n as real * d - d;
  }

  /** A replay of N > 0 messages that raised nothing leaves the clock at
      its N-1 waits after the start. */
  lemma JobEndsAt(st: StoreState, incident: nat, items: seq<ReplayItem>, env: Env, now: real, trace: seq<Event>)
    requires |items| > 0
    requires Job(st, incident, Some(items), env, now, trace).error.None?
    ensures Job(st, incident, Some(items), env, now, trace).now == now + Offset(|items| - 1, Interval(|items|))
  {
    ReplaySchedule(st, incident, items, env, now, trace);
  }

  /** The waits of a replay of N > 0 messages that raised nothing add up to
      (N-1)·60/N seconds (`JobEndsAt` and `WaitsShortOfAMinute`): the job's
      clock ends one interval short of a minute after it started. */
  lemma TotalWaitUnderAMinute(st: StoreState, incident: nat, items: seq<ReplayItem>, env: Env, now: real,
                              trace: seq<Event>)
    requires |items| > 0
    requires Job(st, incident, Some(items), env, now, trace).error.None?
    ensures Job(st, incident, Some(items), env, now, trace).now == now + TotalDuration - Interval(|items|)
    ensures Job(st, incident, Some(items), env, now, trace).now < now + TotalDuration
  {
    JobEndsAt(st, incident, items, env, now, trace);
    WaitsShortOfAMinute(|items|, now, Job(st, incident, Some(items), env, now, trace).now);
  }

  /** A replay keeps the tables consistent. */
  lemma {:induction false} StepsWellFormed(r0: Replay, incident: nat, items: seq<ReplayItem>, interval: real, env: Env)
    requires WellFormed(r0.st)
    ensures WellFormed(Steps(r0, incident, items, interval, EngineOf(env)).st)
    decreases |items|
  {
    if |items| > 0 {
      var r := Steps(r0, incident, items[..|items| - 1], interval, EngineOf(env));
      StepsWellFormed(r0, incident, items[..|items| - 1], interval, env);
      if r.error.None? {
        var item := items[|items| - 1];
        var st1 := AddMessage(r.st, incident, item.text, item.speaker);
        AddMessageWellFormed(r.st, incident, item.text, item.speaker);
        var m := Message(r.st.clock, incident, item.text, item.speaker, r.st.clock);
        assert m in st1.messages;
        CallWellFormed(st1, r.loaded, m, env);
      }
    }
  }

  /** When every created row joins the loaded list of the job's incident
      object, a replay into an incident whose suggestions have distinct
      normalised descriptions keeps them distinct. */
  lemma {:induction false} StepsKeepDistinct(r0: Replay, incident: nat, items: seq<ReplayItem>, interval: real, env: Env)
    requires forall r :: env.addsToLoaded(r)
    requires InSync(r0.st, r0.loaded, incident) && Distinct(SuggestionsOf(r0.st.suggestions, incident))
    ensures var r := Steps(r0, incident, items, interval, EngineOf(env));
      InSync(r.st, r.loaded, incident) && Distinct(SuggestionsOf(r.st.suggestions, incident))
    decreases |items|
  {
    if |items| > 0 {
      var r := Steps(r0, incident, items[..|items| - 1], interval, EngineOf(env));
      StepsKeepDistinct(r0, incident, items[..|items| - 1], interval, env);
      if r.error.None? {
        var item := items[|items| - 1];
        var st1 := AddMessage(r.st, incident, item.text, item.speaker);
        var m := Message(r.st.clock, incident, item.text, item.speaker, r.st.clock);
        assert st1.suggestions == r.st.suggestions;
        CallKeepsDistinct(st1, r.loaded, m, env);
      }
    }
  }

  /** Once the engine has raised, the job stops. */
  lemma {:induction false} StepsErrorStops(r0: Replay, incident: nat, items: seq<ReplayItem>, k: nat, interval: real, analyse: Analyser)
    requires k <= |items|
    requires Steps(r0, incident, items[..k], interval, analyse).error.Some?
    ensures Steps(r0, incident, items, interval, analyse) == Steps(r0, incident, items[..k], interval, analyse)
    decreases |items| - k
  {
    if k < |items| {
      var shorter := items[..|items| - 1];
      assert shorter[..k] == items[..k];
      StepsErrorStops(r0, incident, shorter, k, interval, analyse);
    } else {
      assert items[..k] == items;
    }
  }

  // ---------------------------------------------------------------------
  // The job object
  // ---------------------------------------------------------------------

  /** `TranscriptReplayJob`, with its logical clock and trace. */
  class ReplayJob {
    var now: real
    var trace: seq<Event>

    constructor ()
      ensures now == 0.0 && trace == []
    {
      now := 0.0;
      trace := [];
    }

    /** `sleep(seconds)` on the logical clock. */
    method Sleep(seconds: real)
      modifies this
      ensures now == old(now) + seconds && trace == old(trace) + [Waited(seconds)]
    {
      now := now + seconds;
      trace := trace + [Waited(seconds)];
    }

    /** `perform`: the store, the clock, the trace and the exception raised,
        if any, are those the specification `Job` gives. */
    method Perform(store: Store, incidentId: nat, meeting: Option<seq<ReplayItem>>, env: Env) returns (error: Option<JobError>)
      modifies this, store
      ensures var r := Job(old(store.State()), incidentId, meeting, env, old(now), old(trace));
        store.State() == r.st && now == r.now && trace == r.trace && error == r.error
    {
      if meeting.None? {
        return Some(MissingTranscript);
      }
      var messages := meeting.value;
      var interval := Interval(|messages|);
      var incident := new Incident(incidentId);
      ghost var r0 := Replay(store.State(), None, now, trace, None);
      var idx := 0;
      while idx < |messages|
        invariant 0 <= idx <= |messages|
        invariant fresh(incident) && incident.id == incidentId
        invariant Steps(r0, incidentId, messages[..idx], interval, EngineOf(env)) ==
          Replay(store.State(), incident.loaded, now, trace, None)
      {
        assert messages[..idx + 1][..idx] == messages[..idx];
        error := Ingest(store, incident, idx, messages[idx], interval, env);
        if error.Some? {
          StepsErrorStops(r0, incidentId, messages, idx + 1, interval, EngineOf(env));
          return;
        }
        idx := idx + 1;
      }
      assert messages[..idx] == messages;
      return None;
    }

    /** One iteration of `each_with_index`: the wait and the creation, then
        the engine run, logged once the engine has returned. */
    method Ingest(store: Store, incident: Incident, idx: nat, item: ReplayItem, interval: real, env: Env)
      returns (error: Option<JobError>)
      modifies this, store, incident
      ensures Replay(store.State(), incident.loaded, now, trace, error) ==
        Step(Replay(old(store.State()), old(incident.loaded), old(now), old(trace), None), incident.id, idx, item, interval, EngineOf(env))
    {
      ghost var r := Replay(store.State(), incident.loaded, now, trace, None);
      var tm := Record(store, incident.id, idx, item, interval);
      ghost var before := trace;
      error := Analyse(store, incident, tm, env);
      trace := trace + [Analysed(now, tm.id)];
      ghost var waits := if idx > 0 then [Waited(interval)] else [];
      assert trace == r.trace + waits + [Ingested(now, tm), Analysed(now, tm.id)] by {
        assert before == r.trace + waits + [Ingested(now, tm)];
        assert trace == before + [Analysed(now, tm.id)];
      }
      StepOf(r, incident.id, idx, item, interval, EngineOf(env), Replay(store.State(), incident.loaded, now, trace, error));
    }

    /** `SuggestionEngine.new(tm).call`, its exception passed on. */
    method Analyse(store: Store, incident: Incident, tm: Message, env: Env) returns (error: Option<JobError>)
      requires incident.id == tm.incidentId
      modifies store, incident
      ensures var p := EngineOf(env)(old(store.State()), old(incident.loaded), tm);
        store.State() == p.st && incident.loaded == p.loaded &&
        error == if p.error.Some? then Some(EngineFailed(p.error.value)) else None
    {
      var engine := new Engine(tm, incident);
      var failure := engine.Call(store, env);
      error := if failure.Some? then Some(EngineFailed(failure.value)) else None;
    }

    /** The part of an iteration before the engine runs: the wait unless
        first, and the message created. */
    method Record(store: Store, incident: nat, idx: nat, item: ReplayItem, interval: real) returns (tm: Message)
      modifies this, store
      ensures store.State() == AddMessage(old(store.State()), incident, item.text, item.speaker)
      ensures tm == Message(old(store.clock), incident, item.text, item.speaker, old(store.clock))
      ensures now == if idx > 0 then old(now) + interval else old(now)
      ensures trace == old(trace) + (if idx > 0 then [Waited(interval)] else []) + [Ingested(now, tm)]
    {
      if idx > 0 {
        Sleep(interval);
      }
      tm := store.CreateMessage(incident, item.text, item.speaker);
      trace := trace + [Ingested(now, tm)];
    }
  }
}
