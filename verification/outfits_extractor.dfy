/**
 * extract_outfits.py: a processor that collects the assets a script uses. Five
 * handlers are overridden to add their first argument to one of five
 * module-level sets, which live as long as the program and are shared by the
 * processor of every file; everything else behaves as in the base processor.
 */
module OutfitsExtractor {
  import opened Wrappers
  import opened Errors
  import opened Values
  import opened Records
  import opened Registry
  import opened Binding
  import opened Dispatch
  import opened Runner
  import opened BaseProcessor

  /** The contents of the module-level sets `outfits`, `bgs`, `bgm`, `ses` and `shaders`. */
  datatype Assets = Assets(outfits: set<Value>, bgs: set<Value>, bgm: set<Value>, ses: set<Value>, shaders: set<Value>)

  const NO_ASSETS: Assets := Assets({}, {}, {}, {}, {})

  function Union(a: Assets, b: Assets): Assets
  {
    Assets(a.outfits + b.outfits, a.bgs + b.bgs, a.bgm + b.bgm, a.ses + b.ses, a.shaders + b.shaders)
  }

  /** The handlers this processor overrides. */
  predicate Overridden(h: Handler)
  {
    h.CharaLoad? || h.Se2? || h.Background? || h.Bgm? || h.Shader?
  }

  /**
   * The handler signatures of this processor: the overrides declare one
   * parameter each, `se2` a second one `_` defaulting to 0, and none is
   * annotated; the other handlers are inherited.
   */
  function OutfitSignature(h: Handler): (sig: seq<Param>)
    ensures Overridden(h) ==> |sig| == (if h == Se2 then 2 else 1) && forall i :: 0 <= i < |sig| ==> sig[i].ty == None
    ensures Overridden(h) ==> sig[0].default == None
    ensures h == Se2 ==> sig[1].default == Some(Int(0))
    ensures !Overridden(h) ==> sig == BaseSignature(h)
  {
    match h
    case CharaLoad => [Plain("chara")]
    case Se2 => [Plain("thing"), PlainOr("_", Int(0))]
    case Background => [Plain("thing")]
    case Bgm => [Plain("thing")]
    case Shader => [Plain("shader")]
    case _ => BaseSignature(h)
  }

  lemma OutfitSignaturesWellFormed(h: Handler)
    ensures WellFormed(OutfitSignature(h))
  {
    BaseSignaturesWellFormed(h);
  }

  /** The decisions of this processor. */
  function OutfitStep(seen: set<string>, rec: Record): (Result<Event, Error>, set<string>)
  {
    Step(OutfitSignature, seen, rec)
  }

  /**
   * `set.add(thing)` on the set the override `h` grows. A JSON array or object
   * is unhashable and raises TypeError.
   */
  function Add(a: Assets, h: Handler, thing: Value): (r: Result<Assets, Error>)
    requires Overridden(h)
    ensures r.Err? <==> thing.Other?
    ensures r.Err? ==> r.error == Unhashable
  {
    if thing.Other? then Err(Unhashable)
    else
      Ok(match h
         case CharaLoad => a.(outfits := a.outfits + {thing})
         case Se2 => a.(ses := a.ses + {thing})
         case Background => a.(bgs := a.bgs + {thing})
         case Bgm => a.(bgm := a.bgm + {thing})
         case Shader => a.(shaders := a.shaders + {thing}))
  }

  /** The fields of an `ExtractOutfits` besides `seen`: the shared sets and what it has printed. */
  datatype OutfitsState = OutfitsState(assets: Assets, output: seq<string>)

  /**
   * The effect of an event on this processor. An overridden handler adds its
   * first bound parameter (there is one for each declared parameter, so it is
   * never missing); the inherited handlers, `showtext` and the fallback end in
   * the no-op `handle_default`; a discovery prints its stub.
   */
  function OutfitsEffect(st: OutfitsState, ev: Event): (r: Result<OutfitsState, Error>)
    ensures r.Err? <==> ev.Call? && Overridden(ev.handler) && ev.bound != [] && ev.bound[0].Other?
    ensures r.Ok? ==> r.value.output == st.output + Stubs([ev])
    ensures !(ev.Call? && Overridden(ev.handler)) ==> r.Ok? && r.value.assets == st.assets
  {
    StubsSingle(ev);
    match ev
    case Call(h, bound) =>
      if Overridden(h) && bound != [] then
        match Add(st.assets, h, bound[0])
        case Err(e) => Err(e)
        case Ok(a) => Ok(OutfitsState(a, st.output))
      else Ok(st)
    case Discovered(_, stub) => Ok(st.(output := st.output + [stub]))
    case ShowText(_, _) => Ok(st)
    case Default(_) => Ok(st)
  }

  /**
   * Asset collection does not depend on what the sets already hold: starting
   * with `a` added in front changes neither the decisions, nor the exception,
   * nor the output, and the sets end as `a` joined with what the run collects.
   */
  lemma EffectUnion(a: Assets, b: Assets, output: seq<string>, ev: Event)
    ensures OutfitsEffect(OutfitsState(Union(a, b), output), ev).Ok? == OutfitsEffect(OutfitsState(b, output), ev).Ok?
    ensures OutfitsEffect(OutfitsState(b, output), ev).Ok? ==>
      var r := OutfitsEffect(OutfitsState(b, output), ev).value;
      OutfitsEffect(OutfitsState(Union(a, b), output), ev).value == OutfitsState(Union(a, r.assets), r.output)
  {
  }

  lemma {:induction false} RunUnion(step: Stepper, seen: set<string>, a: Assets, b: Assets, output: seq<string>, recs: seq<Record>)
    ensures var r := RunWith(step, OutfitsEffect, seen, OutfitsState(b, output), recs);
      RunWith(step, OutfitsEffect, seen, OutfitsState(Union(a, b), output), recs)
        == Outcome(r.seen, OutfitsState(Union(a, r.state.assets), r.state.output), r.error)
    decreases |recs|
  {
    if recs != [] {
      var (e, seen') := step(seen, recs[0]);
      if e.Ok? {
        EffectUnion(a, b, output, e.value);
        var h := StepWith(step, OutfitsEffect, seen, OutfitsState(b, output), recs[0]);
        if h.error == None {
          RunUnion(step, seen', a, h.state.assets, h.state.output, recs[1..]);
        }
      }
    }
  }

  lemma UnionEmpty(a: Assets)
    ensures Union(a, NO_ASSETS) == a && Union(NO_ASSETS, a) == a
  {
  }

  /**
   * What one file contributes, whatever the sets held before: the sets after
   * processing it are the sets before joined with what it collects from empty.
   */
  lemma FileContribution(a: Assets, output: seq<string>, recs: seq<Record>)
    ensures var r := RunWith(OutfitStep, OutfitsEffect, {}, OutfitsState(NO_ASSETS, output), recs);
      RunWith(OutfitStep, OutfitsEffect, {}, OutfitsState(a, output), recs)
        == Outcome(r.seen, OutfitsState(Union(a, r.state.assets), r.state.output), r.error)
  {
    UnionEmpty(a);
    RunUnion(OutfitStep, {}, a, NO_ASSETS, output, recs);
  }

  /**
   * Whether or not the run of a file completes, what it prints is the stubs
   * of a completed dispatcher trace over the records before the one that raised.
   */
  lemma PrintedBeforeStop(a: Assets, recs: seq<Record>)
    ensures exists i ::
              && 0 <= i <= |recs|
              && Trace(OutfitSignature, {}, recs[..i]).error.None?
              && RunWith(OutfitStep, OutfitsEffect, {}, OutfitsState(a, []), recs).state.output
                   == Stubs(Trace(OutfitSignature, {}, recs[..i]).events)
              && (RunWith(OutfitStep, OutfitsEffect, {}, OutfitsState(a, []), recs).error.Some? ==> i < |recs|)
  {
    var st := OutfitsState(a, []);
    var r := RunWith(OutfitStep, OutfitsEffect, {}, st, recs);
    RunIsPrefixTrace(OutfitSignature, OutfitStep, OutfitsEffect, {}, st, recs);
    var i :| && 0 <= i <= |recs|
             && Trace(OutfitSignature, {}, recs[..i]).error.None?
             && Effects(OutfitsEffect, st, Trace(OutfitSignature, {}, recs[..i]).events) == Ok(r.state)
             && (r.error.Some? ==> i < |recs|);
    var events := Trace(OutfitSignature, {}, recs[..i]).events;
    EffectsPrintStubs(OutfitsEffect, (t: OutfitsState) => t.output, st, events);
    assert st.output + Stubs(events) == Stubs(events);
  }

  /**
   * A record naming an overridden handler with no more arguments than its
   * override declares is a call of that handler whose first parameter is the
   * record's first argument, uncoerced.
   */
  lemma OverrideCall(seen: set<string>, rec: Record, name: string)
    requires ExtractCmd(rec).Ok? && ExtractCmd(rec).value.0 == Str(name)
    requires name in COMMAND_DICT && Overridden(COMMAND_DICT[name])
    requires 1 <= |Args(rec)| <= |OutfitSignature(COMMAND_DICT[name])|
    ensures OutfitStep(seen, rec).1 == seen
    ensures OutfitStep(seen, rec).0.Ok? && OutfitStep(seen, rec).0.value.Call?
    ensures OutfitStep(seen, rec).0.value.handler == COMMAND_DICT[name]
    ensures OutfitStep(seen, rec).0.value.bound != [] && OutfitStep(seen, rec).0.value.bound[0] == Args(rec)[0]
  {
    var h := COMMAND_DICT[name];
    RegistryHasNoSeparator(name);
    assert Classify(seen, rec) == Ok(Registered(h, Args(rec)));
    StepOfRoute(OutfitSignature, seen, rec);
    OverrideBinds(h, Args(rec));
  }

  /** The overrides take any value as their first parameter, unconverted. */
  lemma OverrideBinds(h: Handler, args: seq<Value>)
    requires Overridden(h) && 1 <= |args| <= |OutfitSignature(h)|
    ensures CallArgs(OutfitSignature(h), args).Ok?
    ensures CallArgs(OutfitSignature(h), args).value != [] && CallArgs(OutfitSignature(h), args).value[0] == args[0]
  {
    OutfitSignaturesWellFormed(h);
    var sig := OutfitSignature(h);
    var bound := Bind(sig, args).value;
    assert forall i :: 0 <= i < |sig| ==> Coerce(sig[i], bound[i]) == Ok(bound[i]);
  }

  /**
   * A record naming an overridden handler with the arguments its override
   * accepts adds its first argument to that handler's set and to no other.
   */
  lemma OverrideAdds(seen: set<string>, st: OutfitsState, rec: Record, name: string, x: Value)
    requires ExtractCmd(rec).Ok? && ExtractCmd(rec).value.0 == Str(name)
    requires name in COMMAND_DICT && Overridden(COMMAND_DICT[name])
    requires 1 <= |Args(rec)| <= |OutfitSignature(COMMAND_DICT[name])|
    requires Args(rec)[0] == x && !x.Other?
    ensures var r := StepWith(OutfitStep, OutfitsEffect, seen, st, rec);
      && r.seen == seen
      && r.error == None
      && r.state.output == st.output
      && (name == "charaload" ==> r.state.assets == st.assets.(outfits := st.assets.outfits + {x}))
      && (name == "se2" ==> r.state.assets == st.assets.(ses := st.assets.ses + {x}))
      && (name == "背景" ==> r.state.assets == st.assets.(bgs := st.assets.bgs + {x}))
      && (name == "bgm" || name == "bgm2" ==> r.state.assets == st.assets.(bgm := st.assets.bgm + {x}))
      && (name == "shader" ==> r.state.assets == st.assets.(shaders := st.assets.shaders + {x}))
  {
    OverrideCall(seen, rec, name);
    var ev := OutfitStep(seen, rec).0.value;
    OverrideEffect(st, ev, x);
    StepWithOk(OutfitStep, OutfitsEffect, seen, st, rec);
    OverrideNames(name);
  }

  /** The registry names of the overridden handlers. */
  lemma OverrideNames(name: string)
    requires name in COMMAND_DICT
    ensures name == "charaload" ==> COMMAND_DICT[name] == CharaLoad
    ensures name == "se2" ==> COMMAND_DICT[name] == Se2
    ensures name == "背景" ==> COMMAND_DICT[name] == Background
    ensures name == "bgm" || name == "bgm2" ==> COMMAND_DICT[name] == Bgm
    ensures name == "shader" ==> COMMAND_DICT[name] == Shader
  {
  }

  /** An overridden handler called with a hashable first parameter adds it and prints nothing. */
  lemma OverrideEffect(st: OutfitsState, ev: Event, x: Value)
    requires ev.Call? && Overridden(ev.handler) && ev.bound != [] && ev.bound[0] == x && !x.Other?
    ensures OutfitsEffect(st, ev) == Ok(OutfitsState(Add(st.assets, ev.handler, x).value, st.output))
  {
    StubsSingle(ev);
  }

  /**
   * The `bgm` and `shader` overrides declare one parameter where the inherited
   * handlers declare two, so a record with a second argument (the time for
   * `bgm`/`bgm2`, the value `a` for `shader`) now fails binding, where the base
   * signature binds it.
   */
  lemma OverrideRejectsSecondArgument(seen: set<string>, st: OutfitsState, rec: Record, name: string)
    requires ExtractCmd(rec).Ok? && ExtractCmd(rec).value.0 == Str(name)
    requires name == "bgm" || name == "bgm2" || name == "shader"
    requires |Args(rec)| == 2
    ensures Bind(BaseSignature(COMMAND_DICT[name]), Args(rec)).Ok?
    ensures StepWith(OutfitStep, OutfitsEffect, seen, st, rec) == Outcome(seen, st, Some(TooManyArguments))
  {
    RegistryHasNoSeparator(name);
    var h := COMMAND_DICT[name];
    if name == "shader" {
      assert h == Shader;
    } else {
      BgmAliases(name);
    }
    assert |OutfitSignature(h)| == 1 && |BaseSignature(h)| == 2;
    assert Classify(seen, rec) == Ok(Registered(h, Args(rec)));
    StepOfRoute(OutfitSignature, seen, rec);
    assert CallArgs(OutfitSignature(h), Args(rec)) == Err(TooManyArguments);
    assert OutfitStep(seen, rec) == (Err(TooManyArguments), seen);
  }

  /** The module-level sets of extract_outfits.py, one object for the whole program. */
  class AssetSets {
    var outfits: set<Value>
    var bgs: set<Value>
    var bgm: set<Value>
    var ses: set<Value>
    var shaders: set<Value>

    function Contents(): Assets
      reads this
    {
      Assets(outfits, bgs, bgm, ses, shaders)
    }

    constructor ()
      ensures Contents() == NO_ASSETS
    {
      outfits, bgs, bgm, ses, shaders := {}, {}, {}, {}, {};
    }
  }

  /** The class named `ExtractLines` in extract_outfits.py. */
  class ExtractOutfits {
    const sets: AssetSets
    var seen: set<string>
    var output: seq<string>

    constructor (sets: AssetSets)
      ensures this.sets == sets && seen == {} && output == []
    {
      this.sets := sets;
      seen := {};
      output := [];
    }

    /** `set.add` on the set the override `h` grows. */
    method AddTo(h: Handler, thing: Value) returns (err: Option<Error>)
      requires Overridden(h)
      modifies sets
      ensures Add(old(sets.Contents()), h, thing).Err? ==> err == Some(Unhashable) && sets.Contents() == old(sets.Contents())
      ensures Add(old(sets.Contents()), h, thing).Ok? ==> err == None && sets.Contents() == Add(old(sets.Contents()), h, thing).value
    {
      if thing.Other? {
        return Some(Unhashable);
      }
      err := None;
      match h
      case CharaLoad => sets.outfits := sets.outfits + {thing};
      case Se2 => sets.ses := sets.ses + {thing};
      case Background => sets.bgs := sets.bgs + {thing};
      case Bgm => sets.bgm := sets.bgm + {thing};
      case Shader => sets.shaders := sets.shaders + {thing};
    }

    /** `call_func`: bind and coerce for this processor's signature, then the handler. */
    method CallFunc(h: Handler, args: seq<Value>) returns (err: Option<Error>)
      modifies sets
      ensures CallArgs(OutfitSignature(h), args).Err? ==>
        err == Some(CallArgs(OutfitSignature(h), args).error) && sets.Contents() == old(sets.Contents())
      ensures CallArgs(OutfitSignature(h), args).Ok? ==>
        var r := OutfitsEffect(OutfitsState(old(sets.Contents()), output), Call(h, CallArgs(OutfitSignature(h), args).value));
        && (r.Err? ==> err == Some(r.error) && sets.Contents() == old(sets.Contents()))
        && (r.Ok? ==> err == None && sets.Contents() == r.value.assets)
    {
      var params := OutfitSignature(h);
      var bound := Bind(params, args);
      if bound.Err? {
        return Some(bound.error);
      }
      var coerced := CoerceArgs(params, bound.value);
      if coerced.Err? {
        return Some(coerced.error);
      }
      if Overridden(h) && coerced.value != [] {
        err := AddTo(h, coerced.value[0]);
      } else {
        err := None;
      }
    }

    /** `process_command` on this processor. */
    method ProcessCommand(rec: Record) returns (err: Option<Error>)
      modifies this, sets
      ensures Outcome(seen, OutfitsState(sets.Contents(), output), err)
        == StepWith(OutfitStep, OutfitsEffect, old(seen), OutfitsState(old(sets.Contents()), old(output)), rec)
    {
      var route := Classify(seen, rec);
      match route
      case Err(e) =>
        err := Some(e);
      case Ok(Dialogue(_, _)) =>
        err := None;
      case Ok(Registered(h, args)) =>
        err := CallFunc(h, args);
      case Ok(Discover(name, args)) =>
        seen := seen + {name};
        var line := Stub(name, args);
        if line.Err? {
          return Some(line.error);
        }
        output := output + [line.value];
        err := None;
      case Ok(Fallback(_)) =>
        err := None;
    }

    /** `process_list`: reset `seen`; the sets keep what earlier files added. */
    method ProcessList(cmds: seq<Record>) returns (err: Option<Error>)
      modifies this, sets
      ensures Outcome(seen, OutfitsState(sets.Contents(), output), err)
        == RunWith(OutfitStep, OutfitsEffect, {}, OutfitsState(old(sets.Contents()), old(output)), cmds)
    {
      seen := {};
      ghost var start := OutfitsState(sets.Contents(), output);
      var i := 0;
      while i < |cmds|
        invariant 0 <= i <= |cmds|
        invariant RunWith(OutfitStep, OutfitsEffect, {}, start, cmds[..i]) == Outcome(seen, OutfitsState(sets.Contents(), output), None)
      {
        ghost var before := Outcome(seen, OutfitsState(sets.Contents(), output), None);
        err := ProcessCommand(cmds[i]);
        RunLoopStep(OutfitStep, OutfitsEffect, start, cmds, i, before, Outcome(seen, OutfitsState(sets.Contents(), output), err));
        if err.Some? {
          return;
        }
        i := i + 1;
      }
      assert cmds[..i] == cmds;
      err := None;
    }

    /** `process_file` after `json.load`: the document must have a "scr" field. */
    method ProcessFile(doc: Document) returns (err: Option<Error>)
      modifies this, sets
      ensures "scr" !in doc ==>
        err == Some(MissingScr) && seen == old(seen) && output == old(output) && sets.Contents() == old(sets.Contents())
      ensures "scr" in doc ==>
        Outcome(seen, OutfitsState(sets.Contents(), output), err)
          == RunWith(OutfitStep, OutfitsEffect, {}, OutfitsState(old(sets.Contents()), old(output)), doc["scr"])
    {
      if "scr" !in doc {
        return Some(MissingScr);
      }
      err := ProcessList(doc["scr"]);
    }
  }

  /** The sets and the printed stubs after some files, and the exception that stopped the program, if any. */
  datatype Collected = Collected(assets: Assets, printed: seq<string>, error: Option<Error>)

  /**
   * The `__main__` loop: one fresh processor per file, all sharing the sets;
   * an exception ends the program.
   */
  function Files(step: Stepper, a: Assets, docs: seq<Document>): Collected
    decreases |docs|
  {
    if docs == [] then Collected(a, [], None)
    else
      var p := Files(step, a, docs[..|docs| - 1]);
      var doc := docs[|docs| - 1];
      if p.error.Some? then p
      else if "scr" !in doc then Collected(p.assets, p.printed, Some(MissingScr))
      else
        var r := RunWith(step, OutfitsEffect, {}, OutfitsState(p.assets, []), doc["scr"]);
        Collected(r.state.assets, p.printed + r.state.output, r.error)
  }

  /** What a document collects into empty sets; nothing without "scr". */
  function Contribution(step: Stepper, doc: Document): Assets
  {
    if "scr" !in doc then NO_ASSETS
    else RunWith(step, OutfitsEffect, {}, OutfitsState(NO_ASSETS, []), doc["scr"]).state.assets
  }

  function UnionAll(step: Stepper, docs: seq<Document>): Assets
    decreases |docs|
  {
    if docs == [] then NO_ASSETS else Union(UnionAll(step, docs[..|docs| - 1]), Contribution(step, docs[|docs| - 1]))
  }

  /**
   * The sets are never cleared, and what a file adds does not depend on what
   * they held: the program started with sets `a` ends with `a` joined with
   * what it collects from empty sets, prints the same and stops the same way.
   */
  lemma {:induction false} FilesUnion(step: Stepper, a: Assets, docs: seq<Document>)
    ensures Files(step, a, docs)
      == Collected(Union(a, Files(step, NO_ASSETS, docs).assets), Files(step, NO_ASSETS, docs).printed, Files(step, NO_ASSETS, docs).error)
    decreases |docs|
  {
    if docs == [] {
      UnionEmpty(a);
    } else {
      var init := docs[..|docs| - 1];
      var doc := docs[|docs| - 1];
      FilesUnion(step, a, init);
      if Files(step, a, init).error == None && "scr" in doc {
        RunUnion(step, {}, a, Files(step, NO_ASSETS, init).assets, [], doc["scr"]);
      }
    }
  }

  /**
   * After several files processed without exception, each set is the union of
   * what each file contributes on its own.
   */
  lemma {:induction false} FilesCollectEachFile(step: Stepper, docs: seq<Document>)
    requires Files(step, NO_ASSETS, docs).error == None
    ensures Files(step, NO_ASSETS, docs).assets == UnionAll(step, docs)
    decreases |docs|
  {
    if docs != [] {
      var init := docs[..|docs| - 1];
      var doc := docs[|docs| - 1];
      FilesCollectEachFile(step, init);
      UnionEmpty(UnionAll(step, init));
      RunUnion(step, {}, UnionAll(step, init), NO_ASSETS, [], doc["scr"]);
    }
  }

  /** One more file after files that ran without exception: its run extends what they collected. */
  lemma FilesNext(step: Stepper, a: Assets, docs: seq<Document>, i: nat, before: Collected,
                  assets: Assets, out: seq<string>, err: Option<Error>)
    requires i < |docs| && Files(step, a, docs[..i]) == before && before.error == None
    requires "scr" !in docs[i] ==> assets == before.assets && out == [] && err == Some(MissingScr)
    requires "scr" in docs[i] ==>
      var r := RunWith(step, OutfitsEffect, {}, OutfitsState(before.assets, []), docs[i]["scr"]);
      r.state == OutfitsState(assets, out) && r.error == err
    ensures Files(step, a, docs[..i + 1]) == Collected(assets, before.printed + out, err)
  {
    assert docs[..i + 1][..i] == docs[..i];
    assert docs[..i + 1][i] == docs[i];
    if "scr" !in docs[i] {
      assert before.printed + out == before.printed;
    }
  }

  /** Once the program has stopped, the files after it add nothing. */
  lemma {:induction false} FilesStop(step: Stepper, a: Assets, docs: seq<Document>, i: nat)
    requires i <= |docs| && Files(step, a, docs[..i]).error.Some?
    ensures Files(step, a, docs) == Files(step, a, docs[..i])
    decreases |docs| - i
  {
    if i < |docs| {
      assert docs[..i + 1][..i] == docs[..i];
      FilesStop(step, a, docs, i + 1);
    } else {
      assert docs[..i] == docs;
    }
  }

  /** `for arg in argv[1:]: ExtractLines(arg).run()` over loaded documents. */
  method CollectAssets(sets: AssetSets, docs: seq<Document>) returns (printed: seq<string>, err: Option<Error>)
    modifies sets
    ensures Collected(sets.Contents(), printed, err) == Files(OutfitStep, old(sets.Contents()), docs)
  {
    printed := [];
    var i := 0;
    while i < |docs|
      invariant 0 <= i <= |docs|
      invariant Files(OutfitStep, old(sets.Contents()), docs[..i]) == Collected(sets.Contents(), printed, None)
    {
      ghost var before := Collected(sets.Contents(), printed, None);
      var x := new ExtractOutfits(sets);
      err := x.ProcessFile(docs[i]);
      FilesNext(OutfitStep, old(sets.Contents()), docs, i, before, sets.Contents(), x.output, err);
      printed := printed + x.output;
      if err.Some? {
        FilesStop(OutfitStep, old(sets.Contents()), docs, i + 1);
        return;
      }
      i := i + 1;
    }
    assert docs[..i] == docs;
    err := None;
  }
}
