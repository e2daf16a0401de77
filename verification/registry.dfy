/**
 * The opcode registry (`command_dict`) and the signatures of the handlers it
 * names, base_processor.py. A signature lists the parameters that follow the two
 * that every handler takes first, the raw record (`raw`) and the opcode (`cmd`).
 */
module Registry {
  import opened Wrappers
  import opened Values
  import opened Records

  /** One constructor per handler method of BaseScriptProcessor. */
  datatype Handler =
    | ShakeSet | Zoom | CharaLoad | SetVar | Background | Bgm | FadeIn | Motion
    | Hide | Chara | FadeOut | ShakeDisp | ShakeChara | Se2 | Wait | SerifClose
    | Move | BgmStop | WipeOut | WipeIn | Shader | SetDispName | RemoveDispName
    | Effect | Voice

  /** A declared parameter: its name, its annotation (if any) and its default (if any). */
  datatype Param = Param(name: string, ty: Option<Ty>, default: Option<Value>)

  function Plain(name: string): Param { Param(name, None, None) }
  function PlainOr(name: string, default: Value): Param { Param(name, None, Some(default)) }
  function Typed(name: string, t: Ty): Param { Param(name, Some(t), None) }
  function TypedOr(name: string, t: Ty, default: Value): Param { Param(name, Some(t), Some(default)) }

  /** `self.command_dict`: opcode name to handler. `bgm2` and `bgm` share a handler. */
  const COMMAND_DICT: map<string, Handler> := map[
    "charaload" := CharaLoad,
    "変数" := SetVar,
    "shakeset" := ShakeSet,
    "背景" := Background,
    "bgm2" := Bgm,
    "bgm" := Bgm,
    "fadein" := FadeIn,
    "motion" := Motion,
    "hide" := Hide,
    "chara" := Chara,
    "fadeout" := FadeOut,
    "zoom" := Zoom,
    "shakedisp" := ShakeDisp,
    "shakechara" := ShakeChara,
    "se2" := Se2,
    "wait" := Wait,
    "serifclose" := SerifClose,
    "move" := Move,
    "bgmstop" := BgmStop,
    "wipeout" := WipeOut,
    "wipein" := WipeIn,
    "shader" := Shader,
    "setdispname" := SetDispName,
    "removedispname" := RemoveDispName,
    "effect" := Effect,
    "voice" := Voice
  ]

  /** The parameters of each base handler, after `raw` and `cmd`. */
  function BaseSignature(h: Handler): seq<Param>
  {
    match h
    case ShakeSet => [Plain("motion"), Typed("a", IntTy), Typed("b", IntTy), Typed("c", IntTy), Typed("d", IntTy)]
    case Zoom => [Typed("zoom", FloatTy), Plain("position"), Typed("x", IntTy), TypedOr("y", IntTy, Int(0))]
    case CharaLoad => [Plain("chara")]
    case SetVar => [Plain("name"), Plain("value"), TypedOr("shift", IntTy, Int(0))]
    case Background => [Plain("filename")]
    case Bgm => [Plain("filename"), TypedOr("time", IntTy, Int(-1))]
    case FadeIn => [Typed("speed", IntTy)]
    case Motion => [Plain("chara"), Plain("motion"), PlainOr("position", Null), TypedOr("a", IntTy, Int(0))]
    case Hide => [Plain("chara"), TypedOr("speed", IntTy, Int(0))]
    case Chara => [Plain("chara"), Plain("motion"), Plain("position"), Typed("x", IntTy), Typed("y", IntTy)]
    case FadeOut => [Plain("color"), Typed("speed", IntTy)]
    case ShakeDisp => [Plain("motion")]
    case ShakeChara => [Plain("chara"), Plain("motion")]
    case Se2 => [Plain("filename"), PlainOr("t", Null)]
    case Wait => [Typed("time", IntTy)]
    case SerifClose => []
    case Move => [Plain("chara"), Plain("position"), Plain("x"), Plain("y")]
    case BgmStop => [TypedOr("a", IntTy, Int(0))]
    case WipeOut => []
    case WipeIn => []
    case Shader => [Plain("filename"), TypedOr("a", IntTy, Int(0))]
    case SetDispName => [Plain("name"), Plain("chara")]
    case RemoveDispName => [Plain("name")]
    case Effect => [Plain("filename")]
    case Voice => [Plain("filename")]
  }

  /**
   * What Python guarantees of every `def`: parameters with defaults come last,
   * and here also that an annotated default already has the annotated type.
   */
  predicate WellFormed(sig: seq<Param>)
  {
    && (forall i, j :: 0 <= i < j < |sig| && sig[i].default.Some? ==> sig[j].default.Some?)
    && (forall i :: 0 <= i < |sig| && sig[i].ty.Some? && sig[i].default.Some? ==>
          Convert(sig[i].ty.value, sig[i].default.value) == Converted(sig[i].default.value))
  }

  lemma BaseSignaturesWellFormed(h: Handler)
    ensures WellFormed(BaseSignature(h))
  {
    if HasDefault(h) {
      DefaultedSignaturesWellFormed(h);
    } else {
      var sig := BaseSignature(h);
      assert forall i :: 0 <= i < |sig| ==> sig[i].default.None?;
    }
  }

  /** The handlers with a parameter that has a default. */
  predicate HasDefault(h: Handler)
  {
    h.Zoom? || h.SetVar? || h.Bgm? || h.Hide? || h.Se2? || h.BgmStop? || h.Shader? || h.Motion?
  }

  lemma DefaultedSignaturesWellFormed(h: Handler)
    requires HasDefault(h)
    ensures WellFormed(BaseSignature(h))
  {
    var sig := BaseSignature(h);
    if h.Motion? {
      assert sig[3].default.Some? && sig[2].ty.None?;
    } else {
      DefaultLastWellFormed(sig);
    }
  }

  /** A signature whose only default, if any, is on its last parameter and has the annotated type. */
  lemma DefaultLastWellFormed(sig: seq<Param>)
    requires forall i :: 0 <= i < |sig| - 1 ==> sig[i].default.None?
    requires |sig| > 0 && sig[|sig| - 1].ty.Some? && sig[|sig| - 1].default.Some? ==>
      Convert(sig[|sig| - 1].ty.value, sig[|sig| - 1].default.value) == Converted(sig[|sig| - 1].default.value)
    ensures WellFormed(sig)
  {
  }

  /** No registered opcode contains the dialogue separator. */
  lemma RegistryHasNoSeparator(name: string)
    requires name in COMMAND_DICT
    ensures SEP !in name
  {
  }

  /** `bgm` and `bgm2` are the two names of the bgm handler, and the only ones. */
  lemma BgmAliases(name: string)
    requires name in COMMAND_DICT
    ensures COMMAND_DICT[name] == Bgm <==> name == "bgm" || name == "bgm2"
  {
  }
}
