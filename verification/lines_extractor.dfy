/**
 * extract_lines.py: the dialogue extractor. `tl_name` renders a speaker name,
 * `ExtractLines` numbers every line shown to the player with its `linecount`,
 * which `showtext` and `handle_default` both bump. The handlers of the base
 * processor all end in `handle_default`, so every record that does not abort
 * and is not a first-occurrence discovery advances the counter by one.
 */
module LinesExtractor {
  import opened Wrappers
  import opened Errors
  import opened Values
  import opened Records
  import opened Registry
  import opened Binding
  import opened Dispatch
  import opened Runner
  import opened BaseProcessor
  import Text

  /** `tl_dict`: speaker and outfit names and their English renderings. */
  const TL_DICT: map<string, string> := map[
    "千雨" := "Chisame",
    "一穂" := "Kazuho",
    "梨花" := "Rika",
    "羽入" := "Hanyuu",
    "魅音" := "Mion",
    "美雪" := "Miyuki",
    "沙都子" := "Satoko",
    "悟史" := "Satoshi",
    "夏美" := "Natsumi",
    "レナ" := "Rena",
    "菜央" := "Nao",
    "私服" := "Casual"
  ]

  /** `tl_dict.get(name, name)`. */
  function Translate(name: string): (r: string)
    ensures name !in TL_DICT ==> r == name
  {
    if name in TL_DICT then TL_DICT[name] else name
  }

  /**
   * `tl_name`: "：" alone is the system speaker; otherwise the name must split
   * on '：' into a speaker and an outfit, and the outfit is looked up directly.
   * A name without '：' looks up `None`, which is never a key, so the bare
   * "= N =" rendering cannot be produced.
   */
  function TlName(name: string): (r: Result<string, Error>)
    ensures r.Ok? <==> name == [SEP] || (|Text.Split(name, SEP)| == 2 && Text.Split(name, SEP)[1] in TL_DICT)
    ensures name == [SEP] ==> r == Ok("System:")
    ensures Text.Count(name, SEP) == 0 ==> r == Err(UnknownOutfit(None))
    ensures Text.Count(name, SEP) >= 2 ==> r == Err(TooManySeparators)
  {
    Text.SplitShape(name, SEP);
    if name == [SEP] then Ok("System:")
    else
      var parts := Text.Split(name, SEP);
      if |parts| > 2 then Err(TooManySeparators)
      else
        var outfit: Option<string> := if |parts| == 1 then None else Some(parts[1]);
        var shown := Translate(parts[0]);
        match outfit
        case None => Err(UnknownOutfit(None))
        case Some(o) =>
          if o in TL_DICT then Ok("= " + shown + " (" + TL_DICT[o] + ") =")
          else Err(UnknownOutfit(Some(o)))
  }

  /** "N：O" with a known outfit renders as "= N' (O') =", N' falling back to N. */
  lemma TlNameFormat(speaker: string, outfit: string)
    requires SEP !in speaker && SEP !in outfit
    requires outfit in TL_DICT
    ensures TlName(speaker + [SEP] + outfit) == Ok("= " + Translate(speaker) + " (" + TL_DICT[outfit] + ") =")
  {
    Text.SplitNone(outfit, SEP);
    Text.SplitAt(speaker, outfit, SEP);
    assert "" !in TL_DICT;
    assert |outfit| > 0;
    assert |speaker + [SEP] + outfit| > 1;
  }

  /** "N：O" with an outfit missing from the table raises KeyError on the outfit. */
  lemma TlNameUnknownOutfit(speaker: string, outfit: string)
    requires SEP !in speaker && SEP !in outfit
    requires outfit !in TL_DICT
    ensures speaker + [SEP] + outfit != [SEP] ==> TlName(speaker + [SEP] + outfit) == Err(UnknownOutfit(Some(outfit)))
  {
    Text.SplitNone(outfit, SEP);
    Text.SplitAt(speaker, outfit, SEP);
  }

  /** One line of the extractor's standard output. */
  datatype Line =
    | Numbered(index: nat, speaker: string, text: Value)  // "{linecount}:\n{tl_name(chara)}", then the text
    | Printed(stub: string)                               // a discovery stub

  /** The discovery stubs among the printed lines. */
  function PrintedStubs(lines: seq<Line>): (stubs: seq<string>)
    ensures |stubs| <= |lines|
  {
    if lines == [] then []
    else (if lines[0].Printed? then [lines[0].stub] else []) + PrintedStubs(lines[1..])
  }

  lemma {:induction false} PrintedStubsAppend(a: seq<Line>, b: seq<Line>)
    ensures PrintedStubs(a + b) == PrintedStubs(a) + PrintedStubs(b)
  {
    if a == [] {
      assert a + b == b;
    } else {
      assert (a + b)[0] == a[0] && (a + b)[1..] == a[1..] + b;
      PrintedStubsAppend(a[1..], b);
    }
  }

  lemma PrintedStubsSingle(line: Line)
    ensures PrintedStubs([line]) == if line.Printed? then [line.stub] else []
  {
    assert [line][0] == line && [line][1..] == [];
  }

  /** The fields of an `ExtractLines` besides `seen`: the counter and what it has printed. */
  datatype LinesState = LinesState(linecount: nat, output: seq<Line>)

  /**
   * The effect of an event on an `ExtractLines`. `showtext` prints the counter
   * and the rendered speaker (or raises from `tl_name` before printing), then
   * counts the line; the base handlers and the fallback end in `handle_default`,
   * which counts the record; a discovery prints its stub and counts nothing.
   */
  function LinesEffect(st: LinesState, ev: Event): (r: Result<LinesState, Error>)
    ensures r.Err? <==> ev.ShowText? && TlName(ev.speaker).Err?
    ensures r.Ok? ==> |r.value.output| >= |st.output| && r.value.output[..|st.output|] == st.output
    ensures r.Ok? ==> r.value.linecount + |PrintedStubs(r.value.output)| == st.linecount + |PrintedStubs(st.output)| + 1
    ensures r.Ok? ==> PrintedStubs(r.value.output) == PrintedStubs(st.output) + Stubs([ev])
    ensures r.Ok? && ev.ShowText? ==> r.value.output == st.output + [Numbered(st.linecount, TlName(ev.speaker).value, ev.text)]
  {
    StubsSingle(ev);
    match ev
    case ShowText(speaker, text) =>
      (match TlName(speaker)
       case Err(e) => Err(e)
       case Ok(shown) =>
         var line := Numbered(st.linecount, shown, text);
         PrintedStubsAppend(st.output, [line]);
         PrintedStubsSingle(line);
         Ok(LinesState(st.linecount + 1, st.output + [line])))
    case Call(_, _) => Ok(LinesState(st.linecount + 1, st.output))
    case Discovered(_, stub) =>
      PrintedStubsAppend(st.output, [Printed(stub)]);
      PrintedStubsSingle(Printed(stub));
      Ok(LinesState(st.linecount, st.output + [Printed(stub)]))
    case Default(_) => Ok(LinesState(st.linecount + 1, st.output))
  }

  /** Printed output is only ever appended to, whether or not the run completes. */
  lemma {:induction false} OutputGrows(step: Stepper, seen: set<string>, st: LinesState, recs: seq<Record>)
    ensures var out := RunWith(step, LinesEffect, seen, st, recs).state.output;
      |out| >= |st.output| && out[..|st.output|] == st.output
    decreases |recs|
  {
    if recs != [] {
      var h := StepWith(step, LinesEffect, seen, st, recs[0]);
      if h.error == None {
        OutputGrows(step, h.seen, h.state, recs[1..]);
        var out := RunWith(step, LinesEffect, h.seen, h.state, recs[1..]).state.output;
        assert out[..|st.output|] == out[..|h.state.output|][..|st.output|];
      }
    }
  }

  /**
   * Over a completed run, `linecount` grows by one for every record except the
   * first-occurrence discoveries, which print a stub instead.
   */
  lemma {:induction false} LinesCount(step: Stepper, seen: set<string>, st: LinesState, recs: seq<Record>)
    requires RunWith(step, LinesEffect, seen, st, recs).error == None
    ensures var r := RunWith(step, LinesEffect, seen, st, recs).state;
      r.linecount + |PrintedStubs(r.output)| == st.linecount + |PrintedStubs(st.output)| + |recs|
    decreases |recs|
  {
    if recs != [] {
      var h := StepWith(step, LinesEffect, seen, st, recs[0]);
      LinesCount(step, h.seen, h.state, recs[1..]);
    }
  }

  /** The stubs printed over a sequence of effects are the events' stubs. */
  lemma LinesEffectsStubs(st: LinesState, events: seq<Event>)
    requires Effects(LinesEffect, st, events).Ok?
    ensures PrintedStubs(Effects(LinesEffect, st, events).value.output) == PrintedStubs(st.output) + Stubs(events)
  {
    EffectsPrintStubs(LinesEffect, (t: LinesState) => PrintedStubs(t.output), st, events);
  }

  /** A fresh `ExtractLines`: no line counted, nothing printed. */
  const FRESH: LinesState := LinesState(0, [])

  /**
   * From a fresh extractor, a completed run ends with `linecount` equal to the
   * number of records minus the number of first-occurrence discovery reports of
   * the dispatcher, which are exactly the stubs it printed.
   */
  lemma FreshLineCount(recs: seq<Record>)
    requires RunWith(BaseStep, LinesEffect, {}, FRESH, recs).error == None
    ensures var r := RunWith(BaseStep, LinesEffect, {}, FRESH, recs).state;
      && PrintedStubs(r.output) == Stubs(Trace(BaseSignature, {}, recs).events)
      && r.linecount == |recs| - |Stubs(Trace(BaseSignature, {}, recs).events)|
  {
    LinesCount(BaseStep, {}, FRESH, recs);
    RunFollowsTrace(BaseSignature, BaseStep, LinesEffect, {}, FRESH, recs);
    LinesEffectsStubs(FRESH, Trace(BaseSignature, {}, recs).events);
  }

  /**
   * Whether or not the run completes, the stubs a fresh extractor prints are
   * the reports of a completed dispatcher trace over the records before the
   * one that raised, so they obey `DiscoveryAtFirstOccurrence`.
   */
  lemma PrintedBeforeStop(recs: seq<Record>)
    ensures exists i ::
              && 0 <= i <= |recs|
              && Trace(BaseSignature, {}, recs[..i]).error.None?
              && PrintedStubs(RunWith(BaseStep, LinesEffect, {}, FRESH, recs).state.output)
                   == Stubs(Trace(BaseSignature, {}, recs[..i]).events)
              && (RunWith(BaseStep, LinesEffect, {}, FRESH, recs).error.Some? ==> i < |recs|)
  {
    var r := RunWith(BaseStep, LinesEffect, {}, FRESH, recs);
    RunIsPrefixTrace(BaseSignature, BaseStep, LinesEffect, {}, FRESH, recs);
    var i :| && 0 <= i <= |recs|
             && Trace(BaseSignature, {}, recs[..i]).error.None?
             && Effects(LinesEffect, FRESH, Trace(BaseSignature, {}, recs[..i]).events) == Ok(r.state)
             && (r.error.Some? ==> i < |recs|);
    var events := Trace(BaseSignature, {}, recs[..i]).events;
    LinesEffectsStubs(FRESH, events);
    assert PrintedStubs(FRESH.output) + Stubs(events) == Stubs(events);
  }

  /**
   * The dialogue line of record `k` carries the counter as it stood before it:
   * `k` minus the stubs printed by the records before it. It is the record's
   * position exactly when none of those was a discovery.
   */
  lemma LineIndex(step: Stepper, recs: seq<Record>, k: nat, speaker: string, text: Value)
    requires k < |recs|
    requires RunWith(step, LinesEffect, {}, FRESH, recs[..k]).error == None
    requires step(RunWith(step, LinesEffect, {}, FRESH, recs[..k]).seen, recs[k]).0 == Ok(ShowText(speaker, text))
    requires TlName(speaker).Ok?
    ensures var before := RunWith(step, LinesEffect, {}, FRESH, recs[..k]).state.output;
      var out := RunWith(step, LinesEffect, {}, FRESH, recs).state.output;
      && |out| > |before|
      && out[|before|].Numbered?
      && out[|before|].index + |PrintedStubs(before)| == k
      && out[|before|].speaker == TlName(speaker).value
      && out[|before|].text == text
  {
    var p := RunWith(step, LinesEffect, {}, FRESH, recs[..k]);
    var h := StepWith(step, LinesEffect, p.seen, p.state, recs[k]);
    LinesCount(step, {}, FRESH, recs[..k]);
    RunAdvance(step, LinesEffect, FRESH, recs, k);
    RunSplit(step, LinesEffect, {}, FRESH, recs[..k + 1], recs[k + 1..]);
    assert recs[..k + 1] + recs[k + 1..] == recs;
    OutputGrows(step, h.seen, h.state, recs[k + 1..]);
    assert h.state.output[|p.state.output|] == Numbered(p.state.linecount, TlName(speaker).value, text);
  }

  /**
   * A dialogue record whose speaker has no '：' (the nameless-dialogue rule)
   * reaches `tl_name`, which raises KeyError for the outfit `None`.
   */
  lemma NamelessDialogueAborts(seen: set<string>, st: LinesState, rec: Record, name: string)
    requires ExtractCmd(rec).Ok? && ExtractCmd(rec).value.0 == Str(name)
    requires SEP !in name && name !in COMMAND_DICT
    requires ArgKey(1) in rec && ArgKey(0) !in rec
    ensures StepWith(BaseStep, LinesEffect, seen, st, rec).error == Some(UnknownOutfit(None))
  {
    NamelessIsDialogue(seen, rec, name);
    Text.SplitShape(name, SEP);
    Text.SplitNone(name, SEP);
  }

  /** A record that raises before any handler leaves the extractor as it was. */
  lemma LinesOnError(seen: set<string>, st: LinesState, rec: Record, e: Error)
    requires Classify(seen, rec) == Err(e)
    ensures StepWith(BaseStep, LinesEffect, seen, st, rec) == Outcome(seen, st, Some(e))
  {
  }

  /** Dialogue: the numbered line when the speaker renders, and the counter moves on; else `tl_name`'s exception. */
  lemma LinesOnDialogue(seen: set<string>, st: LinesState, rec: Record, speaker: string, text: Value)
    requires Classify(seen, rec) == Ok(Dialogue(speaker, text))
    ensures StepWith(BaseStep, LinesEffect, seen, st, rec) ==
      match TlName(speaker)
      case Err(e) => Outcome(seen, st, Some(e))
      case Ok(shown) => Outcome(seen, LinesState(st.linecount + 1, st.output + [Numbered(st.linecount, shown, text)]), None)
  {
    assert BaseStep(seen, rec) == (Ok(Event.ShowText(speaker, text)), seen);
  }

  /** A registered opcode: the counter moves on when binding and coercion succeed. */
  lemma LinesOnCall(seen: set<string>, st: LinesState, rec: Record, h: Handler, args: seq<Value>)
    requires Classify(seen, rec) == Ok(Registered(h, args))
    ensures StepWith(BaseStep, LinesEffect, seen, st, rec) ==
      match CallArgs(BaseSignature(h), args)
      case Err(e) => Outcome(seen, st, Some(e))
      case Ok(_) => Outcome(seen, LinesState(st.linecount + 1, st.output), None)
  {
    StepOfRoute(BaseSignature, seen, rec);
  }

  /** A first occurrence: the name is recorded even when printing the stub raises; the counter stays. */
  lemma LinesOnDiscover(seen: set<string>, st: LinesState, rec: Record, name: string, args: seq<Value>)
    requires Classify(seen, rec) == Ok(Discover(name, args))
    ensures StepWith(BaseStep, LinesEffect, seen, st, rec) ==
      match Stub(name, args)
      case Err(e) => Outcome(seen + {name}, st, Some(e))
      case Ok(line) => Outcome(seen + {name}, LinesState(st.linecount, st.output + [Printed(line)]), None)
  {
    StepOfRoute(BaseSignature, seen, rec);
  }

  /** A repeated unknown opcode goes to `handle_default`, which counts it. */
  lemma LinesOnFallback(seen: set<string>, st: LinesState, rec: Record, name: string)
    requires Classify(seen, rec) == Ok(Fallback(name))
    ensures StepWith(BaseStep, LinesEffect, seen, st, rec) == Outcome(seen, LinesState(st.linecount + 1, st.output), None)
  {
    StepOfRoute(BaseSignature, seen, rec);
  }

  /** `ExtractLines` of extract_lines.py. */
  class ExtractLines {
    var seen: set<string>
    var linecount: nat
    var output: seq<Line>

    /** The counter and the printed lines. */
    function State(): LinesState
      reads this
    {
      LinesState(linecount, output)
    }

    constructor ()
      ensures seen == {} && State() == FRESH
    {
      seen := {};
      linecount := 0;
      output := [];
    }

    /** `showtext`: print the counter and the rendered speaker, then the text; count the line. */
    method ShowText(chara: string, text: Value) returns (err: Option<Error>)
      modifies this
      ensures seen == old(seen)
      ensures TlName(chara).Err? ==> err == Some(TlName(chara).error) && linecount == old(linecount) && output == old(output)
      ensures TlName(chara).Ok? ==>
        && err == None
        && output == old(output) + [Numbered(old(linecount), TlName(chara).value, text)]
        && linecount == old(linecount) + 1
    {
      var shown := TlName(chara);
      if shown.Err? {
        return Some(shown.error);
      }
      output := output + [Numbered(linecount, shown.value, text)];
      linecount := linecount + 1;
      err := None;
    }

    /** `handle_default`: count the record. */
    method HandleDefault()
      modifies this
      ensures linecount == old(linecount) + 1
      ensures seen == old(seen) && output == old(output)
    {
      linecount := linecount + 1;
    }

    /** `call_func` with a base handler, which ends in `handle_default`. */
    method CallFunc(h: Handler, args: seq<Value>) returns (err: Option<Error>)
      modifies this
      ensures seen == old(seen) && output == old(output)
      ensures err == if CallArgs(BaseSignature(h), args).Ok? then None else Some(CallArgs(BaseSignature(h), args).error)
      ensures linecount == old(linecount) + (if err == None then 1 else 0)
    {
      var params := BaseSignature(h);
      var bound := Bind(params, args);
      if bound.Err? {
        return Some(bound.error);
      }
      var coerced := CoerceArgs(params, bound.value);
      if coerced.Err? {
        return Some(coerced.error);
      }
      HandleDefault();
      err := None;
    }

    /** `process_command` on an `ExtractLines`. */
    method ProcessCommand(rec: Record) returns (err: Option<Error>)
      modifies this
      ensures Outcome(seen, State(), err)
        == StepWith(BaseStep, LinesEffect, old(seen), old(State()), rec)
    {
      ghost var st := LinesState(linecount, output);
      ghost var want := StepWith(BaseStep, LinesEffect, seen, st, rec);
      var route := Classify(seen, rec);
      match route
      case Err(e) =>
        LinesOnError(seen, st, rec, e);
        err := Some(e);
        assert Outcome(seen, LinesState(linecount, output), err) == want;
      case Ok(Dialogue(speaker, text)) =>
        LinesOnDialogue(seen, st, rec, speaker, text);
        err := ShowText(speaker, text);
        assert Outcome(seen, LinesState(linecount, output), err) == want;
      case Ok(Registered(h, args)) =>
        LinesOnCall(seen, st, rec, h, args);
        err := CallFunc(h, args);
        assert Outcome(seen, LinesState(linecount, output), err) == want;
      case Ok(Discover(name, args)) =>
        LinesOnDiscover(seen, st, rec, name, args);
        seen := seen + {name};
        var line := Stub(name, args);
        if line.Err? {
          err := Some(line.error);
          assert Outcome(seen, LinesState(linecount, output), err) == want;
          return;
        }
        output := output + [Printed(line.value)];
        err := None;
        assert Outcome(seen, LinesState(linecount, output), err) == want;
      case Ok(Fallback(name)) =>
        LinesOnFallback(seen, st, rec, name);
        HandleDefault();
        err := None;
        assert Outcome(seen, LinesState(linecount, output), err) == want;
    }

    /** `process_list`: reset `seen`; the counter and the output carry on. */
    method ProcessList(cmds: seq<Record>) returns (err: Option<Error>)
      modifies this
      ensures Outcome(seen, State(), err)
        == RunWith(BaseStep, LinesEffect, {}, old(State()), cmds)
    {
      seen := {};
      ghost var start := State();
      assert cmds[..0] == [];
      var i := 0;
      while i < |cmds|
        invariant 0 <= i <= |cmds|
        invariant RunWith(BaseStep, LinesEffect, {}, start, cmds[..i]) == Outcome(seen, State(), None)
      {
        ghost var before := Outcome(seen, State(), None);
        err := ProcessCommand(cmds[i]);
        RunLoopStep(BaseStep, LinesEffect, start, cmds, i, before, Outcome(seen, State(), err));
        if err.Some? {
          return;
        }
        i := i + 1;
      }
      assert cmds[..i] == cmds;
      err := None;
    }

    /** `process_file` after `json.load`: the document must have a "scr" field. */
    method ProcessFile(doc: Document) returns (err: Option<Error>)
      modifies this
      ensures "scr" !in doc ==> err == Some(MissingScr) && seen == old(seen) && linecount == old(linecount) && output == old(output)
      ensures "scr" in doc ==>
        Outcome(seen, State(), err)
          == RunWith(BaseStep, LinesEffect, {}, old(State()), doc["scr"])
    {
      if "scr" !in doc {
        return Some(MissingScr);
      }
      err := ProcessList(doc["scr"]);
    }
  }
}
