# higumei script extraction, modelled in Dafny

This project models the core of higumei-scriptextraction. The repository reads
compiled Higurashi Mei scenario scripts, which are JSON files with a "scr" list of
command records, and walks the records with a small dispatcher.

A record is a string-keyed map. Its opcode sits under `cmd0` (or, failing that,
`cmd1`) and its arguments under `arg0` .. `arg9`. `process_command` sends each
record down one of five rules, in this order:

1. An opcode containing the full-width colon '：' is dialogue, spoken by that opcode.
2. A registered opcode is handled by its handler. Its raw arguments are bound to
   the handler's parameters as `getcallargs` does, and annotated parameters are
   coerced with `int`/`float`; a ValueError keeps the raw value.
3. A record with `arg1` and no `arg0` is nameless dialogue.
4. The first occurrence in a run of any other opcode prints a handler stub.
5. Later occurrences of that opcode go to `handle_default`.

Three processors share this dispatcher:

- **`BaseScriptProcessor`**: every handler ends in the no-op `handle_default`, so a
  run only prints stubs.
- **`ExtractLines`** (extract_lines.py): numbers the dialogue lines with a
  `linecount`. `showtext` and `handle_default` both bump the counter, and the speaker
  is rendered by `tl_name` through `tl_dict`.
- **The asset collector in extract_outfits.py**, whose class is also named
  `ExtractLines` and is called `ExtractOutfits` here: it overrides five handlers,
  which add their first argument to module-level sets. One processor runs per file,
  and all of them share those sets.

The model is layered as the program is:

- **`Values`**: JSON values, plus `int(v)` and `float(v)` on them.
- **`Records`**: `extract_cmd` and `get_arg_list`.
- **`Registry`**: `command_dict` and the handler signatures.
- **`Binding`**: `call_func` up to the handler call.
- **`Dispatch`**: `process_command` as a pure decision (`Step`), and the decisions
  over a whole list (`Trace`).
- **`Runner`**: `process_command` and `process_list` for any processor. A processor
  is its decisions plus the effect each event has on its state.
- **`BaseProcessor`, `LinesExtractor` and `OutfitsExtractor`**: the three processors
  as classes. Each `ProcessCommand` and `ProcessList` method is proved equal to the
  `Runner` fold of that processor's step and effect.
- **`Text`**: `str.split` and `str.join` for one separator.

Exceptions are values of `Errors.Error`. None of them is caught inside a run, so each
one ends the run, and the state keeps whatever was changed before it was raised.

Three behaviours of extract_lines.py are modelled as the code has them, not as a
reader of its names and comments might expect:

- **Nameless dialogue in `ExtractLines`.** Its speaker, the opcode, has no '：', so
  `tl_name` pads the split with `None` and looks up `tl_dict[None]`
  (extract_lines.py:38-44). That raises KeyError and the run stops. The `= {name} =` branch at extract_lines.py:45-46 can
  never be taken.
- **Outfits missing from `tl_dict`.** Line 44 indexes the table directly; the lenient
  `tl_dict.get(outfit, outfit)` is commented out at line 43. So an unknown outfit
  raises KeyError rather than being shown untranslated.
- **The number printed before a dialogue line.** The module docstring calls it the
  command index (extract_lines.py:4), but the code prints `linecount`. The two differ
  by the number of first-occurrence stubs printed before the line (`LineIndex`).

## Model

| member | source | states |
|---|---|---|
| Values.Convert | base_processor.py:126-129 | `int(v)`/`float(v)` yield an int or float; TypeError exactly for null, arrays and objects; ValueError exactly for a str that does not parse |
| Values.Truncate | base_processor.py:128 | `int` of a float truncates toward zero: the result lies within 1 of the input, on the zero side |
| Values.ParseIntRoundTrip | base_processor.py:128 | `int(str(n)) == n` for every integer n |
| Values.ParseIntRejectsLetters | base_processor.py:23 | a string with a non-digit, non-sign character, such as RANDOM, UP or DOWN, makes `int` raise ValueError |
| Values.ParseFloatExtendsParseInt | base_processor.py:128 | every string `int` accepts, `float` accepts with the same value |
| Values.ConvertIdempotent | base_processor.py:128 | converting an already converted value changes nothing |
| Values.ConvertKeepsTyped | base_processor.py:128 | a value already of the annotated type is left as it is |
| Values.NatToDigitsInjective | base_processor.py:118 | distinct slot numbers give distinct `f'arg{i}'` keys |
| Records.ArgKeysDistinct | base_processor.py:103-118 | argument keys are pairwise distinct and never equal `cmd0`/`cmd1` |
| Records.ExtractCmd | base_processor.py:101-112 | succeeds iff `cmd0` or `cmd1` is present; `cmd0` wins; the opcode is the value under the chosen key; otherwise ValueError |
| Records.GetArgList | base_processor.py:114-121 | the loop over `range(10)` returns the values of the present `arg{i}` in slot order |
| Records.ArgsAreThePresentSlots | base_processor.py:114-121 | the argument list is exactly the values of the present slots, in ascending order, with gaps skipped |
| Records.ArgsAtMostTen | base_processor.py:117 | at most ten arguments are extracted |
| Records.ArgsIgnoreOtherKeys | base_processor.py:117-119 | records that agree on `arg0`..`arg9` give the same argument list, so `arg10` and other keys are ignored |
| Records.RecordRoundTrip | base_processor.py:101-121 | decoding a record built from a slot, an opcode and contiguous arguments gives them back |
| Registry.BaseSignaturesWellFormed | base_processor.py:27-55 | in every handler signature, defaulted parameters come last, and each annotated default already has its annotated type |
| Registry.RegistryHasNoSeparator | base_processor.py:66-94 | no registered opcode contains '：', so rule 1 never shadows a registered opcode |
| Registry.BgmAliases | base_processor.py:72-73 | `bgm` and `bgm2` are exactly the names of the bgm handler |
| Binding.BindFromSpec | base_processor.py:124 | binding succeeds iff every unsupplied parameter has a default; arguments fill from the left and defaults fill the rest; otherwise the first missing parameter is named |
| Binding.Bind | base_processor.py:124 | `getcallargs`: more arguments than parameters is TypeError; otherwise as BindFromSpec |
| Binding.Coerce | base_processor.py:127-129 | annotated parameter: the converted value, the raw value on ValueError, an error on TypeError; unannotated: unchanged |
| Binding.CoerceAll | base_processor.py:126-129 | succeeds iff every parameter coerces; the results are pointwise; otherwise the error is the first TypeError in declaration order |
| Binding.CoerceArgs | base_processor.py:126-129 | the in-place coercion loop computes CoerceAll |
| Binding.CallArgsSpec | base_processor.py:123-131 | for a well-formed signature, a call goes through iff the arguments fit, missing ones have defaults and no supplied argument's conversion raises TypeError; defaults arrive unchanged |
| Text.SplitShape | extract_lines.py:37 | `split` yields one piece more than there are separators, and no piece contains one |
| Text.JoinSplit | extract_lines.py:37 | joining the pieces of `split` with the separator gives back the string |
| Text.SplitJoin | extract_lines.py:37 | splitting separator-free pieces joined by the separator gives the pieces back |
| Dispatch.Stub | base_processor.py:141-143 | the stub is `def name(self, raw, cmd, a, b): self.handle_default(raw, cmd)` over the arguments; TypeError iff an argument is not a str |
| Dispatch.StepSpec | base_processor.py:133-145 | `seen` grows by the name of a record reaching rule 4/5 and by nothing else; such a record is reported iff its name is new and otherwise defaults; a handler gets one value per parameter |
| Dispatch.StepOfRoute | base_processor.py:137-145 | the outcome of the registered, discovery and fallback rules; `seen` is updated before the stub's TypeError |
| Dispatch.SeparatorMeansDialogue | base_processor.py:135-136 | an opcode containing '：' is dialogue with text `arg1`, or KeyError without `arg1`, whatever else holds |
| Dispatch.RegisteredBeforeNameless | base_processor.py:137-138 | a registered opcode is dispatched even when the record has `arg1` but no `arg0` |
| Dispatch.NamelessIsDialogue | base_processor.py:139-140 | an unregistered opcode without '：' that has `arg1` but no `arg0` is dialogue, seen or not, and never reaches discovery |
| Dispatch.NonStringOpcodeAborts | base_processor.py:135 | a non-str opcode raises TypeError and changes nothing |
| Dispatch.Trace | base_processor.py:96-99 | a run that completes has one event per record; one that raises has fewer events than records, the raising record giving none |
| Dispatch.TraceStep | base_processor.py:96-99 | a list run is its first step followed by the run of the rest, or ends at that step's exception |
| Dispatch.SeenByContents | base_processor.py:141-142 | `seen` after some records is the starting set plus exactly the names that reached rule 4/5 |
| Dispatch.TraceEvents | base_processor.py:96-99 | a completed run has one event per record; record k's event is decided on the `seen` its predecessors left |
| Dispatch.TracePrefix | base_processor.py:96-99 | a run that raises has the events of the completed run of the records before the raising one |
| Dispatch.TraceCons | base_processor.py:96-99 | the run of the first i + 1 records is the first event followed by the run of the next i |
| Dispatch.DiscoveryAtFirstOccurrence | base_processor.py:141-145 | in any run, completed or not, each record that produced an event and reached rule 4/5 is reported iff no earlier record reached it with the same name, and otherwise goes to `handle_default` |
| Dispatch.CompletedDiscovery | base_processor.py:141-145 | the same, for a completed run |
| Dispatch.FallStep | base_processor.py:141-145 | a successful step of a rule-4/5 record reports it iff its name is not in `seen` |
| Dispatch.EarlierFall | base_processor.py:141-142 | a name is in `seen` before record k iff an earlier record reached rule 4/5 with it |
| Dispatch.DiscoveryOncePerRun | base_processor.py:141-143 | within one run, completed or not, no name is reported twice |
| Dispatch.SeenIsReported | base_processor.py:141-143 | after a completed run, `seen` is exactly the set of reported names |
| Dispatch.FooRecordShape | base_processor.py:101-121 | `{"cmd0": "foo", "arg0": x}` decodes to opcode "foo" in slot 0 with arguments `[x]` and reaches rule 4/5 |
| Dispatch.FooStep | base_processor.py:141-145 | the first `foo` prints `def foo(self, raw, cmd, x): ...` and enters `seen`; a repeated one defaults |
| Dispatch.HelloStep | base_processor.py:135-136 | `{"cmd0": "：", "arg1": "Hello"}` is dialogue spoken by "：" |
| Dispatch.TraceOfThree | base_processor.py:96-99 | three successful steps make a run of their three events |
| Dispatch.ThreeRecordExample | base_processor.py:133-145 | the script "：" Hello, foo bar, foo baz gives dialogue, one stub for foo with parameter bar, then a default; `seen` ends as {"foo"} |
| Runner.StepWith | base_processor.py:133-145 | one record: the new `seen` is the decision's; an exception leaves the state unchanged; success is the handler's effect on the event |
| Runner.StepWithOk | base_processor.py:133-145 | a step whose decision and effect both succeed yields the effect's state |
| Runner.RunSplit | base_processor.py:98-99 | a completed run of `a` followed by a run of `b` is the run of `a + b` |
| Runner.RunSingle | base_processor.py:98-99 | running one record is one `process_command` |
| Runner.RunAdvance | base_processor.py:98-99 | after a completed prefix, record i extends the prefix or ends the run with its exception |
| Runner.RunLoopStep | base_processor.py:98-99 | the same, for the loop of `process_list` with the state in hand |
| Runner.RunPrefix | base_processor.py:98-99 | a run that raises leaves the state of the completed run of the records before the raising one |
| Runner.RunCons | base_processor.py:98-99 | the run of the first i + 1 records, when the first completes, is the run of the next i from its outcome |
| Runner.EffectsStep | base_processor.py:98-99 | the effects of a sequence start with the first event's effect |
| Runner.RunFollowsTrace | base_processor.py:96-99 | a completed processor run is a completed dispatcher trace with the same `seen`, and its state is the effect of the trace's events |
| Runner.RunIsPrefixTrace | base_processor.py:96-99 | completed or not, a processor run ends in the effect of the events of a completed trace over a prefix of its records |
| Runner.TraceGivesRun | base_processor.py:96-99 | when no effect raises, a processor fails exactly where the dispatcher does, with the same `seen` |
| BaseProcessor.StubsContents | base_processor.py:141-143 | the printed lines are exactly the stubs of the discovery events, no more lines than events |
| BaseProcessor.StubsAppend | base_processor.py:98-99 | the stubs of consecutive events are printed in order: those of a sequence are those of its parts, concatenated |
| BaseProcessor.StubsSingle | base_processor.py:143 | one event prints its stub iff it is a discovery |
| BaseProcessor.BaseEffects | base_processor.py:57-58 | the base handlers print nothing, so the effects of events append exactly their stubs |
| BaseProcessor.EffectsPrintStubs | base_processor.py:143 | for any processor whose effects print their events' stubs, a sequence of effects prints the sequence's stubs |
| BaseProcessor.BaseRunIsTrace | base_processor.py:96-99 | a base run stops at the trace's exception, ends with its `seen` and prints its stubs |
| BaseProcessor.BaseScriptProcessor.constructor | base_processor.py:66-67 | a new processor has printed nothing |
| BaseProcessor.BaseScriptProcessor.CallFunc | base_processor.py:123-131 | fails iff binding or coercion fails, with that error |
| BaseProcessor.BaseScriptProcessor.ProcessCommand | base_processor.py:133-145 | the new `seen`, output and exception are StepWith of the base step and effect |
| BaseProcessor.BaseScriptProcessor.ProcessList | base_processor.py:96-99 | resets `seen`, then the state is RunWith over the list |
| BaseProcessor.BaseScriptProcessor.ProcessFile | base_processor.py:147-154 | a document without "scr" raises ValueError and changes nothing; otherwise ProcessList of "scr" |
| BaseProcessor.RunTwice | base_processor.py:96-99 | because `seen` is reset, running one list twice on one processor prints the same stubs, the trace's, both times |
| LinesExtractor.Translate | extract_lines.py:42 | `tl_dict.get(name, name)`: unknown names are kept |
| LinesExtractor.TlName | extract_lines.py:35-48 | succeeds iff the name is "：" or splits into exactly two parts with a known outfit; "：" renders "System:"; no '：' raises KeyError(None); two or more raise ValueError |
| LinesExtractor.TlNameFormat | extract_lines.py:37-48 | "N：O" with a known outfit renders `= N' (O') =`, N' being N translated or N itself |
| LinesExtractor.TlNameUnknownOutfit | extract_lines.py:44 | "N：O" with an outfit missing from `tl_dict` raises KeyError on O |
| LinesExtractor.LinesEffect | extract_lines.py:58-65 | raises iff dialogue with an unrenderable speaker; output only grows; every event but a discovery counts one; dialogue prints the counter before the increment |
| LinesExtractor.OutputGrows | extract_lines.py:58-62 | printed lines are only appended, even in runs that stop |
| LinesExtractor.LinesCount | extract_lines.py:62-65 | over a completed run, linecount plus stubs printed grows by exactly the number of records |
| LinesExtractor.LinesEffectsStubs | base_processor.py:143 | the stubs printed over a sequence of events are the events' stubs |
| LinesExtractor.FreshLineCount | extract_lines.py:56-65 | from a fresh extractor, a completed run prints the trace's stubs and ends with linecount = records - stubs |
| LinesExtractor.PrintedBeforeStop | base_processor.py:96-99 | completed or not, a fresh extractor's run prints exactly the stubs of a completed trace over the records before the raising one |
| LinesExtractor.LineIndex | extract_lines.py:58-62 | the line printed for dialogue record k carries index k minus the stubs printed before it, the rendered speaker and the text |
| LinesExtractor.NamelessDialogueAborts | extract_lines.py:37-44 | nameless dialogue reaches `tl_name` without '：' and raises KeyError(None) |
| LinesExtractor.LinesOnError | base_processor.py:133-135 | a record raising before any handler leaves the extractor unchanged |
| LinesExtractor.LinesOnDialogue | extract_lines.py:58-62 | dialogue prints a numbered line and counts it, or raises from `tl_name` with nothing changed |
| LinesExtractor.LinesOnCall | base_processor.py:137-138 | a registered opcode counts one when binding and coercion succeed, and raises with nothing changed otherwise |
| LinesExtractor.LinesOnDiscover | base_processor.py:141-143 | a discovery records the name even when the stub raises, prints the stub and leaves the counter |
| LinesExtractor.LinesOnFallback | base_processor.py:144-145 | a repeated unknown opcode counts one |
| LinesExtractor.ExtractLines.constructor | extract_lines.py:53-56 | a new extractor has counted nothing and printed nothing |
| LinesExtractor.ExtractLines.ShowText | extract_lines.py:58-62 | prints the counter and the rendered speaker with the text, then counts; a `tl_name` exception changes nothing |
| LinesExtractor.ExtractLines.HandleDefault | extract_lines.py:64-65 | counts one and changes nothing else |
| LinesExtractor.ExtractLines.CallFunc | base_processor.py:123-131 | fails iff binding or coercion fails; on success counts one through `handle_default` |
| LinesExtractor.ExtractLines.ProcessCommand | base_processor.py:133-145 | the new `seen`, counter, output and exception are StepWith of the base step and LinesEffect |
| LinesExtractor.ExtractLines.ProcessList | base_processor.py:96-99 | resets `seen`, then the state is RunWith over the list; the counter carries on |
| LinesExtractor.ExtractLines.ProcessFile | base_processor.py:147-154 | no "scr": ValueError with nothing changed; otherwise ProcessList of "scr" |
| OutfitsExtractor.OutfitSignature | extract_outfits.py:34-47 | the five overrides declare one unannotated parameter without default, `se2` a second one `_` defaulting to 0; the other handlers are inherited |
| OutfitsExtractor.OutfitSignaturesWellFormed | extract_outfits.py:34-47 | the overriding signatures are well formed too |
| OutfitsExtractor.Add | extract_outfits.py:35-47 | `set.add` raises TypeError iff the value is an array or object |
| OutfitsExtractor.OutfitsEffect | extract_outfits.py:34-47 | raises iff an override gets an unhashable first value; prints exactly the stubs; only overrides touch the sets |
| OutfitsExtractor.EffectUnion | extract_outfits.py:20-24 | an event's effect does not depend on what the sets already hold |
| OutfitsExtractor.RunUnion | extract_outfits.py:20-24 | so a run from sets `a` joined with `b` is the run from `b` with `a` joined in |
| OutfitsExtractor.FileContribution | extract_outfits.py:20-24 | one file adds to the sets what it collects from empty sets, and prints and stops the same way |
| OutfitsExtractor.PrintedBeforeStop | base_processor.py:96-99 | completed or not, a file's run prints exactly the stubs of a completed trace over the records before the raising one |
| OutfitsExtractor.OverrideCall | extract_outfits.py:34-47 | an override opcode with between one and as many arguments as it declares calls that handler, with the first argument uncoerced |
| OutfitsExtractor.OverrideBinds | extract_outfits.py:34-47 | such arguments bind, with the first one first |
| OutfitsExtractor.OverrideNames | base_processor.py:68-89 | the registry names of the five overridden handlers |
| OutfitsExtractor.OverrideEffect | extract_outfits.py:34-47 | an override called with a hashable first value adds it and prints nothing |
| OutfitsExtractor.OverrideAdds | extract_outfits.py:34-47 | charaload, se2, 背景, bgm/bgm2 and shader add their first argument to outfits, ses, bgs, bgm and shaders, and to no other set |
| OutfitsExtractor.OverrideRejectsSecondArgument | extract_outfits.py:43-47 | `bgm`/`bgm2`/`shader` with two arguments bind under the base signature but raise TypeError under the override |
| OutfitsExtractor.AssetSets.constructor | extract_outfits.py:20-24 | the module-level sets start empty |
| OutfitsExtractor.ExtractOutfits.constructor | extract_outfits.py:28-32 | a new processor shares the given sets and has printed nothing |
| OutfitsExtractor.ExtractOutfits.AddTo | extract_outfits.py:35-47 | adds to the handler's set, or raises TypeError for an unhashable value with nothing changed |
| OutfitsExtractor.ExtractOutfits.CallFunc | base_processor.py:123-131 | binding or coercion errors change nothing; otherwise the sets become the event's effect |
| OutfitsExtractor.ExtractOutfits.ProcessCommand | base_processor.py:133-145 | the new `seen`, sets, output and exception are StepWith of the outfits step and effect |
| OutfitsExtractor.ExtractOutfits.ProcessList | base_processor.py:96-99 | resets `seen` but not the sets, then RunWith over the list |
| OutfitsExtractor.ExtractOutfits.ProcessFile | base_processor.py:147-154 | no "scr": ValueError with nothing changed; otherwise ProcessList of "scr" |
| OutfitsExtractor.FilesUnion | extract_outfits.py:53-55 | the program started with sets `a` ends with `a` joined with what it collects from empty sets |
| OutfitsExtractor.FilesCollectEachFile | extract_outfits.py:53-55 | after files processed without exception, the sets are the union of each file's own contribution |
| OutfitsExtractor.FilesNext | extract_outfits.py:53-55 | one more file extends the collection of the files before it |
| OutfitsExtractor.FilesStop | extract_outfits.py:53-55 | after an exception, later files add nothing |
| OutfitsExtractor.CollectAssets | extract_outfits.py:53-55 | the loop over files, one processor each on shared sets, computes Files |

## Left out

- File reading and `json.load` in `process_file` (base_processor.py:148-149): a loaded document is a parameter (`Document`).
- Documents whose "scr" is not a list of JSON objects: the model assumes it is one. Python would also accept null, a string, a number or an object there, or list elements that are not objects, and would then iterate characters or keys, or raise TypeError.
- Printing: standard output is a sequence of lines. `Line` abstracts how `print` formats the counter, the speaker and the text. The printed form of a value is not modelled; in particular `showtext` prints an array or object `arg1` with its contents (extract_lines.py:60), which the model holds as the opaque `Other`.
- The `__main__` blocks and `run` methods: the per-file loop of extract_outfits.py is modelled as `CollectAssets`. Not modelled are:
  - the bare `except` of base_processor.py, with its print and break;
  - the file-name prints;
  - the final listing of the sets.
- The unreachable print after `return` in `handle_default` (base_processor.py:59).
- The unused `csv` import and the `filename`, `linecount` and `rows` fields of the class in extract_outfits.py: nothing reads them.
- `seen` before the first `process_list`: the classes initialise it to the empty set in their constructors. Python creates it only in `process_list`, and `process_command` is only reached from there.
- Values.Convert: string conversion covers only a sign followed by ASCII digits, and for `float` a decimal point. Python also accepts:
  - surrounding whitespace and digit-group underscores;
  - non-ASCII digits;
  - exponents, and `inf`/`nan` for `float`.
- Values.Convert: JSON floats are exact reals. Binary rounding, infinities and NaN are not modelled.
- Dispatch.NonStringOpcodeAborts: every non-str opcode raises TypeError. For a JSON array or object, Python first tests membership of '：', and only then raises TypeError on the unhashable `cmd in self.command_dict`. So an array opcode that contains the string "：", or an object opcode with the key "：", would instead reach `showtext`. Those cases are not modelled.
- JSON arrays and objects are one opaque value, `Other`, without contents. No handler branches on what they hold; only their printed form depends on it.
- Python's numeric equality across types inside sets (`1 == 1.0 == True`) is not modelled. Such values are distinct set members here.
- `getcallargs` keyword binding: the dispatcher passes every argument positionally.
- The leading `raw` and `cmd` parameters of every handler: they are always supplied and never annotated, so signatures list only the parameters after them.
