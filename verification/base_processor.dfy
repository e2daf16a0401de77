/**
 * `BaseScriptProcessor` of base_processor.py: handlers that all fall back to the
 * no-op `handle_default`, so what a run shows is the discovery stubs it prints.
 * The per-run state is the `seen` set; printing appends to `output`.
 */
module BaseProcessor {
  import opened Wrappers
  import opened Errors
  import opened Values
  import opened Records
  import opened Registry
  import opened Binding
  import opened Dispatch
  import opened Runner

  /** The lines a base processor prints for a sequence of events: the stubs. */
  function Stubs(events: seq<Event>): seq<string>
  {
    if events == [] then []
    else (if events[0].Discovered? then [events[0].stub] else []) + Stubs(events[1..])
  }

  /** The stubs are the stubs of the discovery events, and no more lines than events. */
  lemma {:induction false} StubsContents(events: seq<Event>)
    ensures |Stubs(events)| <= |events|
    ensures forall line :: line in Stubs(events) <==>
      exists k :: 0 <= k < |events| && events[k].Discovered? && events[k].stub == line
    decreases |events|
  {
    if events != [] {
      var e, rest := events[0], events[1..];
      var head := if e.Discovered? then [e.stub] else [];
      StubsContents(rest);
      assert Stubs(events) == head + Stubs(rest);
      forall line | line in Stubs(rest)
        ensures exists k :: 0 <= k < |events| && events[k].Discovered? && events[k].stub == line
      {
        var k :| 0 <= k < |rest| && rest[k].Discovered? && rest[k].stub == line;
        assert events[k + 1] == rest[k];
      }
      forall k | 0 <= k < |events| && events[k].Discovered?
        ensures events[k].stub in Stubs(events)
      {
        if k > 0 {
          assert rest[k - 1] == events[k];
        }
      }
    }
  }

  /** The stubs of consecutive events, in order: the stubs of a sequence are those of its parts. */
  lemma {:induction false} StubsAppend(a: seq<Event>, b: seq<Event>)
    ensures Stubs(a + b) == Stubs(a) + Stubs(b)
    decreases |a|
  {
    if a == [] {
      assert a + b == b;
    } else {
      var head := if a[0].Discovered? then [a[0].stub] else [];
      assert (a + b)[0] == a[0] && (a + b)[1..] == a[1..] + b;
      StubsAppend(a[1..], b);
      assert Stubs(a + b) == head + Stubs(a[1..] + b);
      assert head + (Stubs(a[1..]) + Stubs(b)) == (head + Stubs(a[1..])) + Stubs(b);
    }
  }

  /** The decisions of a `BaseScriptProcessor`: the base handler signatures. */
  function BaseStep(seen: set<string>, rec: Record): (Result<Event, Error>, set<string>)
  {
    Step(BaseSignature, seen, rec)
  }

  /**
   * The effect of an event on a base processor's output: a discovery prints its
   * stub; every base handler and `showtext` end in `handle_default`, a no-op.
   */
  function BaseEffect(output: seq<string>, ev: Event): Result<seq<string>, Error>
  {
    Ok(if ev.Discovered? then output + [ev.stub] else output)
  }

  lemma StubsSingle(ev: Event)
    ensures Stubs([ev]) == if ev.Discovered? then [ev.stub] else []
  {
    assert [ev][0] == ev && [ev][1..] == [];
  }

  lemma {:induction false} BaseEffects(output: seq<string>, events: seq<Event>)
    ensures Effects(BaseEffect, output, events) == Ok(output + Stubs(events))
    decreases |events|
  {
    if events == [] {
      assert output + [] == output;
    } else {
      var e := events[0];
      var head := if e.Discovered? then [e.stub] else [];
      assert Stubs(events) == head + Stubs(events[1..]);
      if !e.Discovered? {
        assert output + head == output;
      }
      assert BaseEffect(output, e) == Ok(output + head);
      EffectsStep(BaseEffect, output, events);
      BaseEffects(output + head, events[1..]);
      assert (output + head) + Stubs(events[1..]) == output + (head + Stubs(events[1..]));
    }
  }

  /**
   * For any processor whose effects print exactly the stubs of their events, a
   * sequence of effects prints the stubs of the sequence.
   */
  lemma {:induction false} EffectsPrintStubs<S>(effect: (S, Event) -> Result<S, Error>, printed: S -> seq<string>, s: S, events: seq<Event>)
    requires forall t: S, ev: Event :: effect(t, ev).Ok? ==> printed(effect(t, ev).value) == printed(t) + Stubs([ev])
    requires Effects(effect, s, events).Ok?
    ensures printed(Effects(effect, s, events).value) == printed(s) + Stubs(events)
    decreases |events|
  {
    if events == [] {
      assert printed(s) + [] == printed(s);
    } else {
      var e := events[0];
      EffectsStep(effect, s, events);
      var s' := effect(s, e).value;
      EffectsPrintStubs(effect, printed, s', events[1..]);
      var head, rest := Stubs([e]), Stubs(events[1..]);
      assert [e] + events[1..] == events;
      StubsAppend([e], events[1..]);
      assert (printed(s) + head) + rest == printed(s) + (head + rest);
    }
  }

  /**
   * A base processor's run is the dispatcher's trace: it stops at the same
   * exception, ends with the same `seen`, and prints the trace's stubs.
   */
  lemma BaseRunIsTrace(seen: set<string>, output: seq<string>, recs: seq<Record>)
    ensures RunWith(BaseStep, BaseEffect, seen, output, recs)
      == Outcome(Trace(BaseSignature, seen, recs).seen, output + Stubs(Trace(BaseSignature, seen, recs).events), Trace(BaseSignature, seen, recs).error)
  {
    TraceGivesRun(BaseSignature, BaseStep, BaseEffect, seen, output, recs);
    BaseEffects(output, Trace(BaseSignature, seen, recs).events);
  }

  class BaseScriptProcessor {
    var seen: set<string>
    var output: seq<string>

    constructor ()
      ensures seen == {} && output == []
    {
      seen := {};
      output := [];
    }

    /** `call_func` for a base handler: bind, coerce, then the handler, which does nothing. */
    method CallFunc(h: Handler, args: seq<Value>) returns (err: Option<Error>)
      ensures err == if CallArgs(BaseSignature(h), args).Ok? then None else Some(CallArgs(BaseSignature(h), args).error)
    {
      var params := BaseSignature(h);
      var bound := Bind(params, args);
      if bound.Err? {
        return Some(bound.error);
      }
      var coerced := CoerceArgs(params, bound.value);
      if coerced.Err? {
        return Some(coerced.error);
      }
      err := None;
    }

    /** `process_command`. */
    method ProcessCommand(rec: Record) returns (err: Option<Error>)
      modifies this
      ensures Outcome(seen, output, err) == StepWith(BaseStep, BaseEffect, old(seen), old(output), rec)
    {
      var route := Classify(seen, rec);
      match route
      case Err(e) =>
        err := Some(e);
      case Ok(Dialogue(_, _)) =>
        err := None;
      case Ok(Registered(h, args)) =>
        err := CallFunc(h, args);
      case Ok(Discover(name, args)) =>
        seen := seen + {name};
        var line := Stub(name, args);
        if line.Err? {
          return Some(line.error);
        }
        output := output + [line.value];
        err := None;
      case Ok(Fallback(_)) =>
        err := None;
    }

    /** `process_list`: reset `seen`, then every record in order until one raises. */
    method ProcessList(cmds: seq<Record>) returns (err: Option<Error>)
      modifies this
      ensures Outcome(seen, output, err) == RunWith(BaseStep, BaseEffect, {}, old(output), cmds)
    {
      seen := {};
      var i := 0;
      while i < |cmds|
        invariant 0 <= i <= |cmds|
        invariant RunWith(BaseStep, BaseEffect, {}, old(output), cmds[..i]) == Outcome(seen, output, None)
      {
        ghost var before := Outcome(seen, output, None);
        err := ProcessCommand(cmds[i]);
        RunLoopStep(BaseStep, BaseEffect, old(output), cmds, i, before, Outcome(seen, output, err));
        if err.Some? {
          return;
        }
        i := i + 1;
      }
      assert cmds[..i] == cmds;
      err := None;
    }

    /** `process_file` after `json.load`: the document must have a "scr" field. */
    method ProcessFile(doc: Document) returns (err: Option<Error>)
      modifies this
      ensures "scr" !in doc ==> err == Some(MissingScr) && seen == old(seen) && output == old(output)
      ensures "scr" in doc ==> Outcome(seen, output, err) == RunWith(BaseStep, BaseEffect, {}, old(output), doc["scr"])
    {
      if "scr" !in doc {
        return Some(MissingScr);
      }
      err := ProcessList(doc["scr"]);
    }
  }

  /**
   * `process_list` resets `seen`, so running the same list twice on one processor
   * prints the same stubs both times: those of the dispatcher's trace.
   */
  method RunTwice(cmds: seq<Record>) returns (first: seq<string>, second: seq<string>)
    ensures first == second
    ensures first == Stubs(Trace(BaseSignature, {}, cmds).events)
  {
    var p := new BaseScriptProcessor();
    var _ := p.ProcessList(cmds);
    BaseRunIsTrace({}, [], cmds);
    first := p.output;
    var _ := p.ProcessList(cmds);
    BaseRunIsTrace({}, first, cmds);
    second := p.output[|first|..];
  }
}
