/**
 * `process_command` of base_processor.py as a pure decision: which branch a
 * record takes given the names already reported in this run, and what the
 * record then produces. The processors in the other modules perform the
 * branch's side effects; `Trace` runs the decision over a whole list the way
 * `process_list` does.
 */
module Dispatch {
  import opened Wrappers
  import opened Errors
  import opened Values
  import opened Records
  import opened Registry
  import opened Binding
  import Text

  /** The branch of `process_command` a record takes, with what that branch reads from it. */
  datatype Route =
    | Dialogue(speaker: string, text: Value)          // showtext(cmd, command['arg1'])
    | Registered(handler: Handler, args: seq<Value>)  // call_func(command_dict[cmd], command, cmd, *args)
    | Discover(name: string, args: seq<Value>)        // first occurrence of an unknown name: stub printed
    | Fallback(name: string)                          // handle_default(command, cmd)

  /** The five rules of `process_command`, in their order. */
  function Classify(seen: set<string>, rec: Record): Result<Route, Error>
  {
    match ExtractCmd(rec)
    case Err(e) => Err(e)
    case Ok((op, _)) =>
      if !op.Str? then Err(OpcodeNotString)
      else if SEP in op.s then
        if ArgKey(1) in rec then Ok(Dialogue(op.s, rec[ArgKey(1)])) else Err(MissingKey(ArgKey(1)))
      else if op.s in COMMAND_DICT then Ok(Registered(COMMAND_DICT[op.s], Args(rec)))
      else if ArgKey(1) in rec && ArgKey(0) !in rec then Ok(Dialogue(op.s, rec[ArgKey(1)]))
      else if op.s !in seen then Ok(Discover(op.s, Args(rec)))
      else Ok(Fallback(op.s))
  }

  /**
   * The name of a record that reaches the discovery rule: a str opcode without
   * separator, unregistered, and not a nameless dialogue line. None otherwise.
   */
  function FallName(rec: Record): Option<string>
  {
    match ExtractCmd(rec)
    case Err(_) => None
    case Ok((op, _)) =>
      if op.Str? && SEP !in op.s && op.s !in COMMAND_DICT && !(ArgKey(1) in rec && ArgKey(0) !in rec)
      then Some(op.s) else None
  }

  function NameSet(n: Option<string>): set<string>
  {
    match n case Some(x) => {x} case None => {}
  }

  function StrsOf(args: seq<Value>): seq<string>
    requires forall k :: 0 <= k < |args| ==> args[k].Str?
  {
    seq(|args|, k requires 0 <= k < |args| => args[k].s)
  }

  /** `def {name}(self, raw, cmd, {", ".join(params)}): self.handle_default(raw, cmd)`. */
  function StubLine(name: string, params: seq<string>): string
  {
    "def " + name + "(self, raw, cmd, " + Text.Join(params, ", ") + "): self.handle_default(raw, cmd)"
  }

  /**
   * The line printed for a newly discovered name: a handler stub whose parameter
   * list is the observed arguments joined by ", ". `", ".join` raises TypeError
   * when an argument is not a str.
   */
  function Stub(name: string, args: seq<Value>): (r: Result<string, Error>)
    ensures r.Ok? <==> forall k :: 0 <= k < |args| ==> args[k].Str?
    ensures r.Ok? ==> r.value == StubLine(name, StrsOf(args))
    ensures r.Err? ==> r.error == StubArgNotString
  {
    if forall k :: 0 <= k < |args| ==> args[k].Str? then
      Ok(StubLine(name, StrsOf(args)))
    else Err(StubArgNotString)
  }

  /** What a record does, seen from outside the processor. */
  datatype Event =
    | ShowText(speaker: string, text: Value)     // showtext was called
    | Call(handler: Handler, bound: seq<Value>)  // a handler was called with these coerced parameters
    | Discovered(name: string, stub: string)     // a stub was printed
    | Default(name: string)                      // handle_default was called

  /**
   * One record through `process_command`, with the handler signatures `sigs` of
   * the processor: the event (or the exception) and the new `seen`.
   */
  function Step(sigs: Handler -> seq<Param>, seen: set<string>, rec: Record): (Result<Event, Error>, set<string>)
  {
    match Classify(seen, rec)
    case Err(e) => (Err(e), seen)
    case Ok(Dialogue(speaker, text)) => (Ok(ShowText(speaker, text)), seen)
    case Ok(Registered(h, args)) =>
      (match CallArgs(sigs(h), args)
       case Ok(bound) => Ok(Call(h, bound))
       case Err(e) => Err(e), seen)
    case Ok(Discover(name, args)) =>
      (match Stub(name, args)
       case Ok(line) => Ok(Discovered(name, line))
       case Err(e) => Err(e), seen + {name})
    case Ok(Fallback(name)) => (Ok(Default(name)), seen)
  }

  /**
   * What a step decides: `seen` grows by the name of a record that reaches the
   * discovery rule and by nothing else; such a record is reported when its name
   * is new and goes to handle_default when it is not; a handler is called with
   * one value per declared parameter.
   */
  lemma StepSpec(sigs: Handler -> seq<Param>, seen: set<string>, rec: Record)
    ensures var r := Step(sigs, seen, rec);
      && r.1 == seen + NameSet(FallName(rec))
      && (r.0.Ok? && (r.0.value.Discovered? || r.0.value.Default?) ==> FallName(rec) == Some(r.0.value.name))
      && (FallName(rec).Some? ==> (FallName(rec).value in seen <==> r.0 == Ok(Default(FallName(rec).value))))
      && (r.0.Ok? && r.0.value.Discovered? ==> r.0.value.name !in seen)
      && (r.0.Ok? && r.0.value.Call? ==> |r.0.value.bound| == |sigs(r.0.value.handler)|)
  {
  }

  /** The events of a run, the final `seen`, and the exception that ended it early, if any. */
  datatype Run = Run(events: seq<Event>, seen: set<string>, error: Option<Error>)

  /** `process_list` from a given `seen`: the records in order, stopping at the first exception. */
  function Trace(sigs: Handler -> seq<Param>, seen: set<string>, recs: seq<Record>): (r: Run)
    ensures r.error.None? ==> |r.events| == |recs|
    ensures r.error.Some? ==> |r.events| < |recs|
    decreases |recs|
  {
    if recs == [] then Run([], seen, None)
    else
      var (e, seen') := Step(sigs, seen, recs[0]);
      match e
      case Err(x) => Run([], seen', Some(x))
      case Ok(ev) =>
        var rest := Trace(sigs, seen', recs[1..]);
        Run([ev] + rest.events, rest.seen, rest.error)
  }

  /** The run `r` with the events `done` in front of it. */
  function After(done: seq<Event>, r: Run): (r': Run)
    ensures r'.seen == r.seen && r'.error == r.error
    ensures |r'.events| == |done| + |r.events|
  {
    Run(done + r.events, r.seen, r.error)
  }

  /** One record of a trace: a failing step ends it, a successful one leads the rest. */
  lemma TraceStep(sigs: Handler -> seq<Param>, seen: set<string>, recs: seq<Record>)
    requires recs != []
    ensures Step(sigs, seen, recs[0]).0.Err? ==>
      Trace(sigs, seen, recs) == Run([], Step(sigs, seen, recs[0]).1, Some(Step(sigs, seen, recs[0]).0.error))
    ensures Step(sigs, seen, recs[0]).0.Ok? ==>
      Trace(sigs, seen, recs) == After([Step(sigs, seen, recs[0]).0.value], Trace(sigs, Step(sigs, seen, recs[0]).1, recs[1..]))
  {
  }

  /** `seen` after the records `recs`, starting from `seen`. */
  function SeenBy(seen: set<string>, recs: seq<Record>): set<string>
    decreases |recs|
  {
    if recs == [] then seen else SeenBy(seen + NameSet(FallName(recs[0])), recs[1..])
  }

  /** `seen` holds exactly the names that reached the discovery rule. */
  lemma {:induction false} SeenByContents(seen: set<string>, recs: seq<Record>, n: string)
    ensures n in SeenBy(seen, recs) <==> n in seen || exists j :: 0 <= j < |recs| && FallName(recs[j]) == Some(n)
    decreases |recs|
  {
    if recs != [] {
      SeenByContents(seen + NameSet(FallName(recs[0])), recs[1..], n);
      if exists j :: 0 <= j < |recs| - 1 && FallName(recs[1..][j]) == Some(n) {
        var j :| 0 <= j < |recs| - 1 && FallName(recs[1..][j]) == Some(n);
        assert FallName(recs[j + 1]) == Some(n);
      }
      if exists j :: 0 <= j < |recs| && FallName(recs[j]) == Some(n) {
        var j :| 0 <= j < |recs| && FallName(recs[j]) == Some(n);
        if j > 0 { assert FallName(recs[1..][j - 1]) == Some(n); }
      }
    }
  }

  /** In a run that completes, record k produces event k, decided on the `seen` its predecessors left. */
  lemma {:induction false} TraceEvents(sigs: Handler -> seq<Param>, seen: set<string>, recs: seq<Record>)
    requires Trace(sigs, seen, recs).error.None?
    ensures |Trace(sigs, seen, recs).events| == |recs|
    ensures Trace(sigs, seen, recs).seen == SeenBy(seen, recs)
    ensures forall k :: 0 <= k < |recs| ==>
      Step(sigs, SeenBy(seen, recs[..k]), recs[k]).0 == Ok(Trace(sigs, seen, recs).events[k])
    decreases |recs|
  {
    if recs != [] {
      var seen' := Step(sigs, seen, recs[0]).1;
      StepSpec(sigs, seen, recs[0]);
      TraceStep(sigs, seen, recs);
      TraceEvents(sigs, seen', recs[1..]);
      var t := Trace(sigs, seen, recs);
      forall k | 0 <= k < |recs|
        ensures Step(sigs, SeenBy(seen, recs[..k]), recs[k]).0 == Ok(t.events[k])
      {
        if k == 0 {
          assert recs[..0] == [];
        } else {
          assert recs[..k][1..] == recs[1..][..k - 1];
          assert recs[1..][k - 1] == recs[k];
          assert SeenBy(seen, recs[..k]) == SeenBy(seen', recs[1..][..k - 1]);
        }
      }
    }
  }

  /**
   * A run that raises has done what the completed run of a prefix does: its
   * events are those of the records before the one that raised.
   */
  lemma {:induction false} TracePrefix(sigs: Handler -> seq<Param>, seen: set<string>, recs: seq<Record>)
    ensures exists i ::
              && 0 <= i <= |recs|
              && Trace(sigs, seen, recs[..i]).error.None?
              && Trace(sigs, seen, recs[..i]).events == Trace(sigs, seen, recs).events
              && (Trace(sigs, seen, recs).error.Some? ==> i < |recs|)
    decreases |recs|
  {
    assert recs[..0] == [];
    if recs != [] && Step(sigs, seen, recs[0]).0.Ok? {
      var seen' := Step(sigs, seen, recs[0]).1;
      var rest := Trace(sigs, seen', recs[1..]);
      TraceStep(sigs, seen, recs);
      TracePrefix(sigs, seen', recs[1..]);
      var i :| && 0 <= i <= |recs| - 1
               && Trace(sigs, seen', recs[1..][..i]).error.None?
               && Trace(sigs, seen', recs[1..][..i]).events == rest.events
               && (rest.error.Some? ==> i < |recs| - 1);
      TraceCons(sigs, seen, recs, i);
    } else if recs != [] {
      TraceStep(sigs, seen, recs);
    }
  }

  /** The trace of the first `i + 1` records of a list whose first step succeeds. */
  lemma TraceCons(sigs: Handler -> seq<Param>, seen: set<string>, recs: seq<Record>, i: nat)
    requires i < |recs| && Step(sigs, seen, recs[0]).0.Ok?
    ensures Trace(sigs, seen, recs[..i + 1])
      == After([Step(sigs, seen, recs[0]).0.value], Trace(sigs, Step(sigs, seen, recs[0]).1, recs[1..][..i]))
  {
    var p := recs[..i + 1];
    assert p[0] == recs[0] && p[1..] == recs[1..][..i];
    TraceStep(sigs, seen, p);
  }

  /**
   * One record of a run of `process_list` (which starts from an empty `seen`),
   * whether the run completes or raises later: a name that reaches the
   * discovery rule is reported when no earlier record reached the rule with
   * the same name, and goes to handle_default otherwise; a report comes from
   * nothing else.
   */
  lemma DiscoveryAtFirstOccurrence(sigs: Handler -> seq<Param>, recs: seq<Record>, k: nat)
    requires k < |Trace(sigs, {}, recs).events|
    ensures k < |recs|
    ensures FallName(recs[k]).Some? ==>
      (Trace(sigs, {}, recs).events[k].Discovered? <==> forall j :: 0 <= j < k ==> FallName(recs[j]) != FallName(recs[k]))
    ensures FallName(recs[k]).Some? && !Trace(sigs, {}, recs).events[k].Discovered? ==>
      Trace(sigs, {}, recs).events[k] == Default(FallName(recs[k]).value)
    ensures Trace(sigs, {}, recs).events[k].Discovered? ==> FallName(recs[k]) == Some(Trace(sigs, {}, recs).events[k].name)
  {
    TracePrefix(sigs, {}, recs);
    var i :| 0 <= i <= |recs| && Trace(sigs, {}, recs[..i]).error.None?
      && Trace(sigs, {}, recs[..i]).events == Trace(sigs, {}, recs).events;
    var p := recs[..i];
    CompletedDiscovery(sigs, p, k);
    assert p[k] == recs[k];
    assert forall j :: 0 <= j < k ==> FallName(p[j]) == FallName(recs[j]);
  }

  /** `DiscoveryAtFirstOccurrence` for a run that completes. */
  lemma CompletedDiscovery(sigs: Handler -> seq<Param>, recs: seq<Record>, k: nat)
    requires Trace(sigs, {}, recs).error.None? && k < |recs|
    ensures |Trace(sigs, {}, recs).events| == |recs|
    ensures FallName(recs[k]).Some? ==>
      (Trace(sigs, {}, recs).events[k].Discovered? <==> forall j :: 0 <= j < k ==> FallName(recs[j]) != FallName(recs[k]))
    ensures FallName(recs[k]).Some? && !Trace(sigs, {}, recs).events[k].Discovered? ==>
      Trace(sigs, {}, recs).events[k] == Default(FallName(recs[k]).value)
    ensures Trace(sigs, {}, recs).events[k].Discovered? ==> FallName(recs[k]) == Some(Trace(sigs, {}, recs).events[k].name)
  {
    TraceEvents(sigs, {}, recs);
    var seenK := SeenBy({}, recs[..k]);
    var ev := Trace(sigs, {}, recs).events[k];
    assert Step(sigs, seenK, recs[k]).0 == Ok(ev);
    if FallName(recs[k]).Some? {
      FallStep(sigs, seenK, recs[k]);
      EarlierFall(recs, k, FallName(recs[k]).value);
    }
  }

  /** A successful step of a record that reaches the discovery rule reports it exactly when its name is new. */
  lemma FallStep(sigs: Handler -> seq<Param>, seen: set<string>, rec: Record)
    requires Step(sigs, seen, rec).0.Ok? && FallName(rec).Some?
    ensures Step(sigs, seen, rec).0.value.Discovered? <==> FallName(rec).value !in seen
    ensures !Step(sigs, seen, rec).0.value.Discovered? ==> Step(sigs, seen, rec).0.value == Default(FallName(rec).value)
  {
  }

  /** The names that reached the discovery rule before record `k`. */
  lemma EarlierFall(recs: seq<Record>, k: nat, n: string)
    requires k <= |recs|
    ensures n in SeenBy({}, recs[..k]) <==> exists j :: 0 <= j < k && FallName(recs[j]) == Some(n)
  {
    SeenByContents({}, recs[..k], n);
    if exists j :: 0 <= j < k && FallName(recs[j]) == Some(n) {
      var j :| 0 <= j < k && FallName(recs[j]) == Some(n);
      assert recs[..k][j] == recs[j];
    }
    if exists j :: 0 <= j < k && FallName(recs[..k][j]) == Some(n) {
      var j :| 0 <= j < k && FallName(recs[..k][j]) == Some(n);
      assert recs[..k][j] == recs[j];
    }
  }

  /** Within one run, whether it completes or not, no name is reported twice. */
  lemma DiscoveryOncePerRun(sigs: Handler -> seq<Param>, recs: seq<Record>, j: nat, k: nat)
    requires j < k < |Trace(sigs, {}, recs).events|
    requires Trace(sigs, {}, recs).events[j].Discovered? && Trace(sigs, {}, recs).events[k].Discovered?
    ensures Trace(sigs, {}, recs).events[j].name != Trace(sigs, {}, recs).events[k].name
  {
    DiscoveryAtFirstOccurrence(sigs, recs, j);
    DiscoveryAtFirstOccurrence(sigs, recs, k);
  }

  /** After a completed run, `seen` is exactly the set of names reported in it. */
  lemma SeenIsReported(sigs: Handler -> seq<Param>, recs: seq<Record>, n: string)
    requires Trace(sigs, {}, recs).error.None?
    ensures |Trace(sigs, {}, recs).events| == |recs|
    ensures n in Trace(sigs, {}, recs).seen <==>
      exists k :: 0 <= k < |recs| && Trace(sigs, {}, recs).events[k].Discovered? && Trace(sigs, {}, recs).events[k].name == n
  {
    var t := Trace(sigs, {}, recs);
    TraceEvents(sigs, {}, recs);
    SeenByContents({}, recs, n);
    if n in t.seen {
      var k := FirstFall(recs, n);
      CompletedDiscovery(sigs, recs, k);
      assert t.events[k].Discovered? && t.events[k].name == n;
    }
    if exists k :: 0 <= k < |recs| && t.events[k].Discovered? && t.events[k].name == n {
      var k :| 0 <= k < |recs| && t.events[k].Discovered? && t.events[k].name == n;
      CompletedDiscovery(sigs, recs, k);
    }
  }

  /** The first record that reaches the discovery rule with name `n`. */
  lemma {:induction false} FirstFallExists(recs: seq<Record>, n: string, k: nat)
    requires k < |recs| && FallName(recs[k]) == Some(n)
    ensures exists i :: 0 <= i <= k && FallName(recs[i]) == Some(n) && forall j :: 0 <= j < i ==> FallName(recs[j]) != Some(n)
    decreases k
  {
    if exists j :: 0 <= j < k && FallName(recs[j]) == Some(n) {
      var j :| 0 <= j < k && FallName(recs[j]) == Some(n);
      FirstFallExists(recs, n, j);
    }
  }

  ghost function FirstFall(recs: seq<Record>, n: string): (i: nat)
    requires exists k :: 0 <= k < |recs| && FallName(recs[k]) == Some(n)
    ensures i < |recs| && FallName(recs[i]) == Some(n) && forall j :: 0 <= j < i ==> FallName(recs[j]) != Some(n)
  {
    var k :| 0 <= k < |recs| && FallName(recs[k]) == Some(n);
    FirstFallExists(recs, n, k);
    var i :| 0 <= i <= k && FallName(recs[i]) == Some(n) && forall j :: 0 <= j < i ==> FallName(recs[j]) != Some(n);
    i
  }

  /**
   * Rule 1 comes first: an opcode with the separator is dialogue whatever else
   * holds of it, even when the same name is registered, and its text is
   * `command['arg1']`, a KeyError when absent.
   */
  lemma SeparatorMeansDialogue(seen: set<string>, rec: Record, name: string)
    requires ExtractCmd(rec).Ok? && ExtractCmd(rec).value.0 == Str(name) && SEP in name
    ensures ArgKey(1) in rec ==> Classify(seen, rec) == Ok(Dialogue(name, rec[ArgKey(1)]))
    ensures ArgKey(1) !in rec ==> Classify(seen, rec) == Err(MissingKey(ArgKey(1)))
  {
  }

  /** Rule 2 before rule 3: a registered name is dispatched even when `arg1` is present and `arg0` absent. */
  lemma RegisteredBeforeNameless(seen: set<string>, rec: Record, name: string)
    requires ExtractCmd(rec).Ok? && ExtractCmd(rec).value.0 == Str(name) && name in COMMAND_DICT
    ensures Classify(seen, rec) == Ok(Registered(COMMAND_DICT[name], Args(rec)))
  {
    RegistryHasNoSeparator(name);
  }

  /**
   * Rule 3 before discovery: an unregistered name without separator whose record
   * has `arg1` but no `arg0` is dialogue, whether or not the name was seen.
   */
  lemma NamelessIsDialogue(seen: set<string>, rec: Record, name: string)
    requires ExtractCmd(rec).Ok? && ExtractCmd(rec).value.0 == Str(name)
    requires SEP !in name && name !in COMMAND_DICT && ArgKey(1) in rec && ArgKey(0) !in rec
    ensures Classify(seen, rec) == Ok(Dialogue(name, rec[ArgKey(1)]))
    ensures FallName(rec) == None
  {
  }

  /** A record whose opcode is not a str aborts the run with TypeError. */
  lemma NonStringOpcodeAborts(sigs: Handler -> seq<Param>, seen: set<string>, rec: Record)
    requires ExtractCmd(rec).Ok? && !ExtractCmd(rec).value.0.Str?
    ensures Step(sigs, seen, rec) == (Err(OpcodeNotString), seen)
  {
  }

  /** `{"cmd0": "foo", "arg0": arg}`: the unregistered opcode "foo" with one argument. */
  function FooRecord(arg: string): Record
  {
    MakeRecord(0, Str("foo"), [Str(arg)])
  }

  lemma FooRecordShape(arg: string)
    ensures ExtractCmd(FooRecord(arg)) == Ok((Str("foo"), 0))
    ensures Args(FooRecord(arg)) == [Str(arg)]
    ensures ArgKey(0) in FooRecord(arg)
    ensures SEP !in "foo" && "foo" !in COMMAND_DICT
    ensures FallName(FooRecord(arg)) == Some("foo")
  {
    RecordRoundTrip(0, Str("foo"), [Str(arg)]);
    ArgMapContents([Str(arg)]);
    assert "foo" !in COMMAND_DICT;
  }

  /** The first `foo` of a run is reported with its argument; a later one goes to handle_default. */
  lemma FooStep(sigs: Handler -> seq<Param>, seen: set<string>, arg: string)
    ensures "foo" !in seen ==> Step(sigs, seen, FooRecord(arg)) == (Ok(Discovered("foo", StubLine("foo", [arg]))), seen + {"foo"})
    ensures "foo" in seen ==> Step(sigs, seen, FooRecord(arg)) == (Ok(Default("foo")), seen)
  {
    var rec := FooRecord(arg);
    FooRecordShape(arg);
    assert StrsOf([Str(arg)]) == [arg];
    assert Stub("foo", [Str(arg)]) == Ok(StubLine("foo", [arg]));
    StepOfRoute(sigs, seen, rec);
  }

  /** The step of a record that reaches the registered, the discovery or the fallback rule. */
  lemma StepOfRoute(sigs: Handler -> seq<Param>, seen: set<string>, rec: Record)
    ensures Classify(seen, rec).Ok? && Classify(seen, rec).value.Discover? ==>
      var Discover(name, args) := Classify(seen, rec).value;
      Step(sigs, seen, rec) == (match Stub(name, args) case Ok(line) => Ok(Discovered(name, line)) case Err(e) => Err(e), seen + {name})
    ensures Classify(seen, rec).Ok? && Classify(seen, rec).value.Fallback? ==>
      Step(sigs, seen, rec) == (Ok(Default(Classify(seen, rec).value.name)), seen)
    ensures Classify(seen, rec).Ok? && Classify(seen, rec).value.Registered? ==>
      var Registered(h, args) := Classify(seen, rec).value;
      Step(sigs, seen, rec) == (match CallArgs(sigs(h), args) case Ok(bound) => Ok(Call(h, bound)) case Err(e) => Err(e), seen)
  {
  }

  /** The record `{"cmd0": "：", "arg1": "Hello"}` is dialogue. */
  lemma HelloStep(sigs: Handler -> seq<Param>)
    ensures Step(sigs, {}, map["cmd0" := Str("："), "arg1" := Str("Hello")]) == (Ok(ShowText("：", Str("Hello"))), {})
  {
    ArgKeyLiterals();
    var r1: Record := map["cmd0" := Str("："), "arg1" := Str("Hello")];
    assert ExtractCmd(r1) == Ok((Str("："), 0));
  }

  /**
   * The three-record script: a separator-only speaker saying "Hello", then the
   * unknown opcode "foo" twice. The first is dialogue, the second reports "foo"
   * with its argument "bar", the third goes to handle_default.
   */
  lemma ThreeRecordExample(sigs: Handler -> seq<Param>)
    ensures Trace(sigs, {}, [map["cmd0" := Str("："), "arg1" := Str("Hello")], FooRecord("bar"), FooRecord("baz")]) ==
      Run([ShowText("：", Str("Hello")), Discovered("foo", StubLine("foo", ["bar"])), Default("foo")], {"foo"}, None)
  {
    var r1: Record := map["cmd0" := Str("："), "arg1" := Str("Hello")];
    var r2, r3 := FooRecord("bar"), FooRecord("baz");
    HelloStep(sigs);
    FooStep(sigs, {}, "bar");
    FooStep(sigs, {"foo"}, "baz");
    assert {} + {"foo"} == {"foo"};
    TraceOfThree(sigs, r1, r2, r3);
  }

  /** A run of three records whose steps all succeed. */
  lemma TraceOfThree(sigs: Handler -> seq<Param>, r1: Record, r2: Record, r3: Record)
    requires Step(sigs, {}, r1).0.Ok?
    requires Step(sigs, Step(sigs, {}, r1).1, r2).0.Ok?
    requires Step(sigs, Step(sigs, Step(sigs, {}, r1).1, r2).1, r3).0.Ok?
    ensures var (e1, s1) := Step(sigs, {}, r1);
      var (e2, s2) := Step(sigs, s1, r2);
      var (e3, s3) := Step(sigs, s2, r3);
      Trace(sigs, {}, [r1, r2, r3]) == Run([e1.value, e2.value, e3.value], s3, None)
  {
    var s1 := Step(sigs, {}, r1).1;
    var s2 := Step(sigs, s1, r2).1;
    TraceStep(sigs, s2, [r3]);
    assert [r3][1..] == [];
    TraceStep(sigs, s1, [r2, r3]);
    assert [r2, r3][1..] == [r3];
    TraceStep(sigs, {}, [r1, r2, r3]);
    assert [r1, r2, r3][1..] == [r2, r3];
  }
}
