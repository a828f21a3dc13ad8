/** The state as a fold over its own event log. */
module EventLog {
  import opened Collections
  import opened Governance

  /** The whole state: the governance part, all other fields (`panel`), the event log
      and the time of the last event. */
  datatype State<P> = State(gov: Gov, panel: P, log: seq<Event>, timestamp: Option<Text>)

  /** `panel` updates the other fields from their old value, the governance state before
      and after, and the event; it may raise. */
  datatype Machine<!P> = Machine(env: Env, panel: (Gov, Gov, P, Event) -> Outcome<P, Fault>)

  function ReduceEvent<P>(m: Machine<P>, s: State<P>, raw: Event): Outcome<State<P>, Fault> {
    var checked := ValidateEvent(raw);
    if checked.Raised? then Raised(checked.error)
    else
      var e := checked.value;
      var gov := Reduce(m.env, s.gov, e);
      if gov.Raised? then Raised(gov.error)
      else
        var panel := m.panel(s.gov, gov.value, s.panel, e);
        if panel.Raised? then Raised(panel.error)
        else Ok(State(gov.value, panel.value, s.log + [e], if e.timestamp.Some? then e.timestamp else s.timestamp))
  }

  function Replay<P>(m: Machine<P>, s: State<P>, events: seq<Event>): Outcome<State<P>, Fault>
    decreases |events|
  {
    if events == [] then Ok(s)
    else
      var next := ReduceEvent(m, s, events[0]);
      if next.Raised? then next else Replay(m, next.value, events[1..])
  }

  method ReplayEvents<P>(m: Machine<P>, initial: State<P>, events: seq<Event>) returns (out: Outcome<State<P>, Fault>)
    ensures out == Replay(m, initial, events)
  {
    var state := initial;
    for i := 0 to |events|
      invariant Replay(m, initial, events) == Replay(m, state, events[i..])
    {
      assert events[i..][1..] == events[i + 1..];
      var next := ReduceEvent(m, state, events[i]);
      if next.Raised? { return next; }
      state := next.value;
    }
    return Ok(state);
  }

  /** The process state along a run: an event that raises leaves the state as it was. */
  function Absorb<P>(m: Machine<P>, s: State<P>, raws: seq<Event>): State<P>
    decreases |raws|
  {
    if raws == [] then s
    else
      var before := Absorb(m, s, raws[..|raws| - 1]);
      var next := ReduceEvent(m, before, raws[|raws| - 1]);
      if next.Raised? then before else next.value
  }

  /** An event is one of the known types, under `type` or else under `event_type`; it gets
      the present schema version when it has none. */
  lemma ValidateExactly(e: Event)
    ensures ValidateEvent(e).Ok?
            <==> (e.typ != "" && e.typ in EVENT_TYPES) || (e.typ == "" && e.eventType in EVENT_TYPES)
    ensures ValidateEvent(e).Raised? ==> ValidateEvent(e).error == UnsupportedType
    ensures ValidateEvent(e).Ok? ==>
              && ValidateEvent(e).value.typ == (if e.typ == "" then e.eventType else e.typ)
              && ValidateEvent(e).value.schemaVersion
                 == (match e.schemaVersion case Some(v) => Some(v) case None => Some("metis_event.v0.1"))
  {
    assert "" !in EVENT_TYPES;
  }

  /** What an event does to the whole state: it is logged as validated, last; the time of
      the state is the event's own, if it has one; and the rest is what the two reducers
      say.  An event that raises yields no state. */
  lemma ReduceExactly<P>(m: Machine<P>, s: State<P>, raw: Event)
    ensures ReduceEvent(m, s, raw).Ok? ==>
              var (next, e) := (ReduceEvent(m, s, raw).value, ValidateEvent(raw).value);
              && ValidateEvent(raw).Ok? && next.log == s.log + [e]
              && (e.timestamp.Some? ==> next.timestamp == e.timestamp)
              && (e.timestamp.None? ==> next.timestamp == s.timestamp)
              && Reduce(m.env, s.gov, e) == Ok(next.gov) && m.panel(s.gov, next.gov, s.panel, e) == Ok(next.panel)
    ensures ReduceEvent(m, s, raw).Raised? <==>
              || ValidateEvent(raw).Raised? || Reduce(m.env, s.gov, ValidateEvent(raw).value).Raised?
              || m.panel(s.gov, Reduce(m.env, s.gov, ValidateEvent(raw).value).value, s.panel,
                         ValidateEvent(raw).value).Raised?
  {
  }

  lemma ValidateIdempotent(e: Event)
    requires ValidateEvent(e).Ok?
    ensures var v := ValidateEvent(e).value;
            && ValidateEvent(v) == Ok(v)
            && v.typ in EVENT_TYPES && v.eventType == "" && v.schemaVersion.Some?
            && v == e.(typ := v.typ, eventType := "", schemaVersion := v.schemaVersion)
  {
    assert "" !in EVENT_TYPES;
  }

  lemma {:induction false} ReplayConcat<P>(m: Machine<P>, s: State<P>, a: seq<Event>, b: seq<Event>)
    ensures Replay(m, s, a + b) ==
              var mid := Replay(m, s, a);
              if mid.Raised? then mid else Replay(m, mid.value, b)
    decreases |a|
  {
    if a == [] {
      assert a + b == b;
    } else {
      assert (a + b)[0] == a[0] && (a + b)[1..] == a[1..] + b;
      var next := ReduceEvent(m, s, a[0]);
      if next.Ok? { ReplayConcat(m, next.value, a[1..], b); }
    }
  }

  /** Reducing the recorded form of an event does what reducing the event did. */
  lemma RecordedFormSame<P>(m: Machine<P>, s: State<P>, raw: Event)
    requires ReduceEvent(m, s, raw).Ok?
    ensures var s' := ReduceEvent(m, s, raw).value;
            |s'.log| == |s.log| + 1 && s'.log[..|s.log|] == s.log && ReduceEvent(m, s, s'.log[|s.log|]) == Ok(s')
  {
    ValidateIdempotent(raw);
  }

  /** Whatever events were offered, accepted or refused: replaying the state's own log
      from where the run began gives exactly the state. */
  lemma {:induction false} LogIsTheState<P>(m: Machine<P>, start: State<P>, raws: seq<Event>)
    requires start.log == []
    ensures Replay(m, start, Absorb(m, start, raws).log) == Ok(Absorb(m, start, raws))
    decreases |raws|
  {
    if raws != [] {
      var earlier := raws[..|raws| - 1];
      var before := Absorb(m, start, earlier);
      var next := ReduceEvent(m, before, raws[|raws| - 1]);
      LogIsTheState(m, start, earlier);
      if next.Ok? {
        RecordedFormSame(m, before, raws[|raws| - 1]);
        var e := next.value.log[|before.log|];
        assert next.value.log == before.log + [e];
        ReplayConcat(m, start, before.log, [e]);
        assert Replay(m, before, [e]) == Ok(next.value);
      }
    }
  }

  lemma LogGrows<P>(m: Machine<P>, start: State<P>, raws: seq<Event>, k: nat)
    requires raws != [] && k < |Absorb(m, start, raws).log|
    ensures var before := Absorb(m, start, raws[..|raws| - 1]);
            k <= |before.log| && Absorb(m, start, raws).log[..k] == before.log[..k]
  {
    var before := Absorb(m, start, raws[..|raws| - 1]);
    if ReduceEvent(m, before, raws[|raws| - 1]).Ok? {
      RecordedFormSame(m, before, raws[|raws| - 1]);
      var log := Absorb(m, start, raws).log;
      assert log[..k] == log[..|before.log|][..k];
    }
  }

  /** Replaying part of the log and then the rest is replaying all of it: every prefix of
      the log reproduces the state the run had at that point. */
  lemma {:induction false} LogPrefixes<P>(m: Machine<P>, start: State<P>, raws: seq<Event>, k: nat) returns (n: nat)
    requires start.log == [] && k <= |Absorb(m, start, raws).log|
    ensures n <= |raws| && Absorb(m, start, raws[..n]).log == Absorb(m, start, raws).log[..k]
    ensures Replay(m, start, Absorb(m, start, raws).log[..k]) == Ok(Absorb(m, start, raws[..n]))
    decreases |raws|
  {
    var end := Absorb(m, start, raws);
    if k == |end.log| {
      n := |raws|;
      assert raws[..n] == raws && end.log[..k] == end.log;
      LogIsTheState(m, start, raws);
    } else {
      var earlier := raws[..|raws| - 1];
      LogGrows(m, start, raws, k);
      n := LogPrefixes(m, start, earlier, k);
      assert earlier[..n] == raws[..n];
    }
  }
}
