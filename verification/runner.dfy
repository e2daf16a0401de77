/**
 * `process_list` and `process_command` of base_processor.py, defined once for
 * every processor: a processor is its decisions (`Step` with its own handler
 * signatures) and the effect its handlers have on its own state. Subclasses
 * override handlers, never these two methods, so the loop is shared.
 */
module Runner {
  import opened Wrappers
  import opened Errors
  import opened Records
  import opened Registry
  import opened Dispatch

  /** The decisions of a processor: `Step` with that processor's handler signatures. */
  type Stepper = (set<string>, Record) -> (Result<Event, Error>, set<string>)

  /** `seen` and the processor state `S` after some records, and the exception that ended them, if any. */
  datatype Outcome<S> = Outcome(seen: set<string>, state: S, error: Option<Error>)

  /**
   * One call of `process_command`: the decision, then the handler's effect on
   * the state. An exception from either leaves the state as it was, apart from
   * `seen`, which the discovery branch updates before it prints.
   */
  function StepWith<S>(step: Stepper, effect: (S, Event) -> Result<S, Error>, seen: set<string>, s: S, rec: Record): (r: Outcome<S>)
    ensures r.seen == step(seen, rec).1
    ensures r.error.Some? ==> r.state == s
    ensures r.error == None ==> step(seen, rec).0.Ok? && Ok(r.state) == effect(s, step(seen, rec).0.value)
  {
    var (e, seen') := step(seen, rec);
    match e
    case Err(x) => Outcome(seen', s, Some(x))
    case Ok(ev) =>
      match effect(s, ev)
      case Err(x) => Outcome(seen', s, Some(x))
      case Ok(s') => Outcome(seen', s', None)
  }

  /** A step whose decision and effect both succeed. */
  lemma StepWithOk<S>(step: Stepper, effect: (S, Event) -> Result<S, Error>, seen: set<string>, s: S, rec: Record)
    requires step(seen, rec).0.Ok? && effect(s, step(seen, rec).0.value).Ok?
    ensures StepWith(step, effect, seen, s, rec) == Outcome(step(seen, rec).1, effect(s, step(seen, rec).0.value).value, None)
  {
  }

  /** The loop of `process_list` from `seen` and `s`: the records in order until one raises. */
  function RunWith<S>(step: Stepper, effect: (S, Event) -> Result<S, Error>, seen: set<string>, s: S, recs: seq<Record>): (r: Outcome<S>)
    decreases |recs|
  {
    if recs == [] then Outcome(seen, s, None)
    else
      var h := StepWith(step, effect, seen, s, recs[0]);
      if h.error.Some? then h else RunWith(step, effect, h.seen, h.state, recs[1..])
  }

  /** A completed run of `a` followed by a run of `b` is a run of `a + b`. */
  lemma {:induction false} RunSplit<S>(step: Stepper, effect: (S, Event) -> Result<S, Error>, seen: set<string>, s: S, a: seq<Record>, b: seq<Record>)
    requires RunWith(step, effect, seen, s, a).error == None
    ensures RunWith(step, effect, seen, s, a + b)
      == RunWith(step, effect, RunWith(step, effect, seen, s, a).seen, RunWith(step, effect, seen, s, a).state, b)
    decreases |a|
  {
    if a == [] {
      assert a + b == b;
    } else {
      assert (a + b)[0] == a[0] && (a + b)[1..] == a[1..] + b;
      var h := StepWith(step, effect, seen, s, a[0]);
      RunSplit(step, effect, h.seen, h.state, a[1..], b);
    }
  }

  /** The run of one record is one call of `process_command`. */
  lemma RunSingle<S>(step: Stepper, effect: (S, Event) -> Result<S, Error>, seen: set<string>, s: S, rec: Record)
    ensures RunWith(step, effect, seen, s, [rec]) == StepWith(step, effect, seen, s, rec)
  {
    assert [rec][0] == rec && [rec][1..] == [];
  }

  /**
   * The step of the `process_list` loop: after a completed prefix, record `i`
   * either extends the prefix or ends the run with its exception.
   */
  lemma RunAdvance<S>(step: Stepper, effect: (S, Event) -> Result<S, Error>, s0: S, cmds: seq<Record>, i: nat)
    requires i < |cmds|
    requires RunWith(step, effect, {}, s0, cmds[..i]).error == None
    ensures var p := RunWith(step, effect, {}, s0, cmds[..i]);
      var h := StepWith(step, effect, p.seen, p.state, cmds[i]);
      && (h.error == None ==> RunWith(step, effect, {}, s0, cmds[..i + 1]) == h)
      && (h.error.Some? ==> RunWith(step, effect, {}, s0, cmds) == h)
  {
    var p := RunWith(step, effect, {}, s0, cmds[..i]);
    RunSplit(step, effect, {}, s0, cmds[..i], [cmds[i]]);
    RunSplit(step, effect, {}, s0, cmds[..i], cmds[i..]);
    RunSingle(step, effect, p.seen, p.state, cmds[i]);
    assert cmds[..i] + [cmds[i]] == cmds[..i + 1];
    assert cmds[..i] + cmds[i..] == cmds;
    assert cmds[i..][0] == cmds[i];
  }

  /**
   * The `process_list` loop with the processor's state in hand: `before` is the
   * outcome of the completed prefix, `after` the outcome of record `i` from it.
   */
  lemma RunLoopStep<S>(step: Stepper, effect: (S, Event) -> Result<S, Error>, s0: S, cmds: seq<Record>, i: nat,
                       before: Outcome<S>, after: Outcome<S>)
    requires i < |cmds|
    requires RunWith(step, effect, {}, s0, cmds[..i]) == before && before.error == None
    requires after == StepWith(step, effect, before.seen, before.state, cmds[i])
    ensures after.error == None ==> RunWith(step, effect, {}, s0, cmds[..i + 1]) == after
    ensures after.error.Some? ==> RunWith(step, effect, {}, s0, cmds) == after
  {
    RunAdvance(step, effect, s0, cmds, i);
  }

  /**
   * A run that raises leaves the state of the completed run of a prefix: the
   * records before the one that raised.
   */
  lemma {:induction false} RunPrefix<S>(step: Stepper, effect: (S, Event) -> Result<S, Error>, seen: set<string>, s: S, recs: seq<Record>)
    ensures exists i ::
              && 0 <= i <= |recs|
              && RunWith(step, effect, seen, s, recs[..i]).error == None
              && RunWith(step, effect, seen, s, recs[..i]).state == RunWith(step, effect, seen, s, recs).state
              && (RunWith(step, effect, seen, s, recs).error.Some? ==> i < |recs|)
    decreases |recs|
  {
    assert recs[..0] == [];
    if recs != [] {
      var h := StepWith(step, effect, seen, s, recs[0]);
      if h.error == None {
        var rest := RunWith(step, effect, h.seen, h.state, recs[1..]);
        RunPrefix(step, effect, h.seen, h.state, recs[1..]);
        var i :| && 0 <= i <= |recs| - 1
                 && RunWith(step, effect, h.seen, h.state, recs[1..][..i]).error == None
                 && RunWith(step, effect, h.seen, h.state, recs[1..][..i]).state == rest.state
                 && (rest.error.Some? ==> i < |recs| - 1);
        RunCons(step, effect, seen, s, recs, i);
      }
    }
  }

  /** The run of the first `i + 1` records of a list whose first record completes. */
  lemma RunCons<S>(step: Stepper, effect: (S, Event) -> Result<S, Error>, seen: set<string>, s: S, recs: seq<Record>, i: nat)
    requires i < |recs| && StepWith(step, effect, seen, s, recs[0]).error == None
    ensures var h := StepWith(step, effect, seen, s, recs[0]);
      RunWith(step, effect, seen, s, recs[..i + 1]) == RunWith(step, effect, h.seen, h.state, recs[1..][..i])
  {
    var p := recs[..i + 1];
    assert p[0] == recs[0] && p[1..] == recs[1..][..i];
  }

  /** The effects of a sequence of events, in order, stopping at the first exception. */
  function Effects<S>(effect: (S, Event) -> Result<S, Error>, s: S, events: seq<Event>): (r: Result<S, Error>)
    decreases |events|
  {
    if events == [] then Ok(s)
    else
      match effect(s, events[0])
      case Err(x) => Err(x)
      case Ok(s') => Effects(effect, s', events[1..])
  }

  /** The first event of a sequence, when its effect or the effects of the whole sequence succeed. */
  lemma EffectsStep<S>(effect: (S, Event) -> Result<S, Error>, s: S, events: seq<Event>)
    requires events != [] && (effect(s, events[0]).Ok? || Effects(effect, s, events).Ok?)
    ensures effect(s, events[0]).Ok?
    ensures Effects(effect, s, events) == Effects(effect, effect(s, events[0]).value, events[1..])
  {
  }

  /**
   * A processor makes the decisions of the dispatcher: a completed run is a
   * completed trace, with the same `seen`, and its state is the effect of the
   * trace's events.
   */
  lemma {:induction false} RunFollowsTrace<S>(sigs: Handler -> seq<Param>, step: Stepper, effect: (S, Event) -> Result<S, Error>, seen: set<string>, s: S, recs: seq<Record>)
    requires forall ss, rec :: step(ss, rec) == Step(sigs, ss, rec)
    requires RunWith(step, effect, seen, s, recs).error == None
    ensures Trace(sigs, seen, recs).error == None
    ensures Trace(sigs, seen, recs).seen == RunWith(step, effect, seen, s, recs).seen
    ensures Effects(effect, s, Trace(sigs, seen, recs).events) == Ok(RunWith(step, effect, seen, s, recs).state)
    decreases |recs|
  {
    if recs != [] {
      var h := StepWith(step, effect, seen, s, recs[0]);
      var ev := step(seen, recs[0]).0.value;
      TraceStep(sigs, seen, recs);
      RunFollowsTrace(sigs, step, effect, h.seen, h.state, recs[1..]);
      var rest := Trace(sigs, h.seen, recs[1..]).events;
      assert ([ev] + rest)[0] == ev && ([ev] + rest)[1..] == rest;
    }
  }

  /**
   * Whether or not it completes, a processor's run ends in the effect of the
   * events of a completed dispatcher trace over a prefix of its records.
   */
  lemma RunIsPrefixTrace<S>(sigs: Handler -> seq<Param>, step: Stepper, effect: (S, Event) -> Result<S, Error>, seen: set<string>, s: S, recs: seq<Record>)
    requires forall ss, rec :: step(ss, rec) == Step(sigs, ss, rec)
    ensures exists i ::
              && 0 <= i <= |recs|
              && Trace(sigs, seen, recs[..i]).error.None?
              && Effects(effect, s, Trace(sigs, seen, recs[..i]).events) == Ok(RunWith(step, effect, seen, s, recs).state)
              && (RunWith(step, effect, seen, s, recs).error.Some? ==> i < |recs|)
  {
    RunPrefix(step, effect, seen, s, recs);
    var i :| && 0 <= i <= |recs|
             && RunWith(step, effect, seen, s, recs[..i]).error == None
             && RunWith(step, effect, seen, s, recs[..i]).state == RunWith(step, effect, seen, s, recs).state
             && (RunWith(step, effect, seen, s, recs).error.Some? ==> i < |recs|);
    RunFollowsTrace(sigs, step, effect, seen, s, recs[..i]);
  }

  /**
   * Conversely, when every effect succeeds, a completed trace is a completed run:
   * the processor then fails exactly where the dispatcher does.
   */
  lemma {:induction false} TraceGivesRun<S>(sigs: Handler -> seq<Param>, step: Stepper, effect: (S, Event) -> Result<S, Error>, seen: set<string>, s: S, recs: seq<Record>)
    requires forall ss, rec :: step(ss, rec) == Step(sigs, ss, rec)
    requires forall t: S, ev :: effect(t, ev).Ok?
    ensures RunWith(step, effect, seen, s, recs).seen == Trace(sigs, seen, recs).seen
    ensures RunWith(step, effect, seen, s, recs).error == Trace(sigs, seen, recs).error
    ensures Effects(effect, s, Trace(sigs, seen, recs).events) == Ok(RunWith(step, effect, seen, s, recs).state)
    decreases |recs|
  {
    if recs != [] {
      var h := StepWith(step, effect, seen, s, recs[0]);
      TraceStep(sigs, seen, recs);
      if h.error == None {
        var ev := step(seen, recs[0]).0.value;
        TraceGivesRun(sigs, step, effect, h.seen, h.state, recs[1..]);
        var rest := Trace(sigs, h.seen, recs[1..]).events;
        assert ([ev] + rest)[0] == ev && ([ev] + rest)[1..] == rest;
      }
    }
  }
}
