/**
 * A command record as the scenario compiler emits it: a string-keyed map with the
 * opcode under `cmd0` or `cmd1` and the arguments under `arg0` .. `arg9`.
 * Models `extract_cmd` and `get_arg_list` of base_processor.py.
 */
module Records {
  import opened Wrappers
  import opened Errors
  import opened Values

  type Record = map<string, Value>

  /** A loaded script file, reduced to its top-level fields that hold record lists. */
  type Document = map<string, seq<Record>>

  /** The full-width colon that joins a speaker and an outfit in an opcode. */
  const SEP: char := '：'

  /** `get_arg_list` scans `arg0` .. `arg9`: `range(10)`. */
  const ARG_SLOTS: nat := 10

  /** `f'arg{i}'`. */
  function ArgKey(i: nat): string { "arg" + NatToDigits(i) }

  /** `cmd0` (slot 0) or `cmd1` (slot 1). */
  function CmdKey(slot: nat): string { "cmd" + NatToDigits(slot) }

  lemma ArgKeysDistinct()
    ensures forall i: nat, j: nat :: ArgKey(i) == ArgKey(j) ==> i == j
    ensures forall i: nat, slot: nat :: ArgKey(i) != CmdKey(slot)
  {
    forall i: nat, j: nat | ArgKey(i) == ArgKey(j) ensures i == j {
      assert NatToDigits(i) == ArgKey(i)[3..];
      assert NatToDigits(j) == ArgKey(j)[3..];
      NatToDigitsInjective(i, j);
    }
    forall i: nat, slot: nat ensures ArgKey(i) != CmdKey(slot) {
      assert ArgKey(i)[0] != CmdKey(slot)[0];
    }
  }

  lemma ArgKeyLiterals()
    ensures ArgKey(0) == "arg0" && ArgKey(1) == "arg1"
    ensures forall i :: 2 <= i < ARG_SLOTS ==> ArgKey(i) != "arg0" && ArgKey(i) != "arg1"
  {
    assert NatToDigits(0) == "0" && NatToDigits(1) == "1";
    ArgKeysDistinct();
  }

  /**
   * `extract_cmd`: the opcode and the slot it was found in. `cmd0` wins over
   * `cmd1`; a record with neither raises ValueError.
   */
  function ExtractCmd(rec: Record): (r: Result<(Value, nat), Error>)
    ensures r.Ok? <==> CmdKey(0) in rec || CmdKey(1) in rec
    ensures r.Ok? ==> r.value.1 < 2 && CmdKey(r.value.1) in rec && r.value.0 == rec[CmdKey(r.value.1)]
    ensures r.Ok? ==> (r.value.1 == 0 <==> CmdKey(0) in rec)
    ensures r.Err? ==> r.error == CommandNotFound
  {
    assert CmdKey(0) == "cmd0" && CmdKey(1) == "cmd1" by { assert NatToDigits(0) == "0" && NatToDigits(1) == "1"; }
    if "cmd0" in rec then Ok((rec["cmd0"], 0))
    else if "cmd1" in rec then Ok((rec["cmd1"], 1))
    else Err(CommandNotFound)
  }

  /** The slots below `n` that hold an argument, in ascending order. */
  function PresentSlots(rec: Record, n: nat): (slots: seq<nat>)
    ensures forall j :: 0 <= j < |slots| ==> slots[j] < n && ArgKey(slots[j]) in rec
    ensures forall i :: 0 <= i < n && ArgKey(i) in rec ==> i in slots
    ensures forall j, k :: 0 <= j < k < |slots| ==> slots[j] < slots[k]
  {
    if n == 0 then [] else PresentSlots(rec, n - 1) + (if ArgKey(n - 1) in rec then [n - 1] else [])
  }

  /** The values of the present argument slots below `n`, in slot order. */
  function ArgsBelow(rec: Record, n: nat): seq<Value>
  {
    if n == 0 then [] else ArgsBelow(rec, n - 1) + (if ArgKey(n - 1) in rec then [rec[ArgKey(n - 1)]] else [])
  }

  /** What `get_arg_list` returns. */
  function Args(rec: Record): seq<Value> { ArgsBelow(rec, ARG_SLOTS) }

  /**
   * `get_arg_list`: appends, for i in 0 .. 9, the value under `arg{i}` when present.
   */
  method GetArgList(rec: Record) returns (args: seq<Value>)
    ensures args == Args(rec)
  {
    args := [];
    for i := 0 to ARG_SLOTS
      invariant args == ArgsBelow(rec, i)
    {
      if ArgKey(i) in rec {
        args := args + [rec[ArgKey(i)]];
      }
    }
  }

  /**
   * The argument list is exactly the values of the present slots, in ascending
   * slot order: gaps are skipped and nothing else is added.
   */
  lemma {:induction false} ArgsAreThePresentSlots(rec: Record, n: nat)
    ensures |ArgsBelow(rec, n)| == |PresentSlots(rec, n)| <= n
    ensures forall j :: 0 <= j < |ArgsBelow(rec, n)| ==>
      ArgsBelow(rec, n)[j] == rec[ArgKey(PresentSlots(rec, n)[j])]
  {
    if n > 0 {
      ArgsAreThePresentSlots(rec, n - 1);
    }
  }

  /** At most ten arguments are ever extracted. */
  lemma ArgsAtMostTen(rec: Record)
    ensures |Args(rec)| <= ARG_SLOTS
  {
    ArgsAreThePresentSlots(rec, ARG_SLOTS);
  }

  /** Only `arg0` .. `arg9` matter: `arg10` and any other key are ignored. */
  lemma {:induction false} ArgsIgnoreOtherKeys(r1: Record, r2: Record, n: nat)
    requires forall i :: 0 <= i < n ==> (ArgKey(i) in r1 <==> ArgKey(i) in r2)
    requires forall i :: 0 <= i < n && ArgKey(i) in r1 ==> r1[ArgKey(i)] == r2[ArgKey(i)]
    ensures ArgsBelow(r1, n) == ArgsBelow(r2, n)
  {
    if n > 0 {
      ArgsIgnoreOtherKeys(r1, r2, n - 1);
    }
  }

  /** The arguments of a contiguous record, `arg0` .. `arg{|args|-1}`. */
  function ArgMap(args: seq<Value>): (m: map<string, Value>)
  {
    if args == [] then map[] else ArgMap(args[..|args| - 1])[ArgKey(|args| - 1) := args[|args| - 1]]
  }

  lemma {:induction false} ArgMapContents(args: seq<Value>)
    ensures forall i :: 0 <= i < |args| ==> ArgKey(i) in ArgMap(args) && ArgMap(args)[ArgKey(i)] == args[i]
    ensures forall i: nat :: ArgKey(i) in ArgMap(args) ==> i < |args|
    ensures forall slot: nat :: CmdKey(slot) !in ArgMap(args)
  {
    ArgKeysDistinct();
    if args != [] {
      ArgMapContents(args[..|args| - 1]);
    }
  }

  /** The record the scenario compiler emits for an opcode in `slot` and contiguous arguments. */
  function MakeRecord(slot: nat, op: Value, args: seq<Value>): Record
  {
    ArgMap(args)[CmdKey(slot) := op]
  }

  lemma {:induction false} ArgsOfContiguous(rec: Record, args: seq<Value>, n: nat)
    requires forall i :: 0 <= i < |args| ==> ArgKey(i) in rec && rec[ArgKey(i)] == args[i]
    requires forall i: nat :: ArgKey(i) in rec ==> i < |args|
    ensures ArgsBelow(rec, n) == args[..if n < |args| then n else |args|]
  {
    if n > 0 {
      ArgsOfContiguous(rec, args, n - 1);
    }
  }

  /** Decoding a compiled record gives back its opcode, its slot and its arguments. */
  lemma RecordRoundTrip(slot: nat, op: Value, args: seq<Value>)
    requires slot < 2 && |args| <= ARG_SLOTS
    ensures ExtractCmd(MakeRecord(slot, op, args)) == Ok((op, slot))
    ensures Args(MakeRecord(slot, op, args)) == args
  {
    ArgMapContents(args);
    MakeRecordOpcode(slot, op, args);
    MakeRecordArgs(slot, op, args);
  }

  lemma MakeRecordOpcode(slot: nat, op: Value, args: seq<Value>)
    requires slot < 2
    requires forall s: nat :: CmdKey(s) !in ArgMap(args)
    ensures ExtractCmd(MakeRecord(slot, op, args)) == Ok((op, slot))
  {
    assert CmdKey(0) != CmdKey(1) by { assert CmdKey(0)[3] != CmdKey(1)[3]; }
  }

  lemma MakeRecordArgs(slot: nat, op: Value, args: seq<Value>)
    requires |args| <= ARG_SLOTS
    requires forall i :: 0 <= i < |args| ==> ArgKey(i) in ArgMap(args) && ArgMap(args)[ArgKey(i)] == args[i]
    requires forall i: nat :: ArgKey(i) in ArgMap(args) ==> i < |args|
    ensures Args(MakeRecord(slot, op, args)) == args
  {
    var rec := MakeRecord(slot, op, args);
    MakeRecordSlots(slot, op, args);
    ArgsOfContiguous(rec, args, ARG_SLOTS);
    assert args[..|args|] == args;
  }

  /** The argument slots of a compiled record are those of its argument map. */
  lemma MakeRecordSlots(slot: nat, op: Value, args: seq<Value>)
    requires forall i :: 0 <= i < |args| ==> ArgKey(i) in ArgMap(args) && ArgMap(args)[ArgKey(i)] == args[i]
    requires forall i: nat :: ArgKey(i) in ArgMap(args) ==> i < |args|
    ensures forall i :: 0 <= i < |args| ==> ArgKey(i) in MakeRecord(slot, op, args) && MakeRecord(slot, op, args)[ArgKey(i)] == args[i]
    ensures forall i: nat :: ArgKey(i) in MakeRecord(slot, op, args) ==> i < |args|
  {
    var rec := MakeRecord(slot, op, args);
    forall i | 0 <= i < |args| ensures ArgKey(i) in rec && rec[ArgKey(i)] == args[i] {
      ArgKeyIsNotCmdKey(i, slot);
    }
    forall i: nat | ArgKey(i) in rec ensures i < |args| {
      ArgKeyIsNotCmdKey(i, slot);
    }
  }

  lemma ArgKeyIsNotCmdKey(i: nat, slot: nat)
    ensures ArgKey(i) != CmdKey(slot)
  {
    assert ArgKey(i)[0] != CmdKey(slot)[0];
  }
}
