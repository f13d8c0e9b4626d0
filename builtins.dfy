/**
 * The builtin intrinsic table of compileCall: an imported function whose
 * symbol name appears here is not called but lowered by one of the
 * routines of the builtins module. Only which routine is chosen is
 * modelled here; the routines' bodies are not part of this model.
 */
module Builtins {
  import opened Wrappers

  /** One lowering routine of the builtins module. */
  datatype Routine =
    | Rotl | Rotr
    | Clz | Ctz | Popcnt
    | Abs | Ceil | Floor | Sqrt | Trunc | Nearest
    | Min | Max | Copysign
    | Reinterpret
    | CurrentMemory | GrowMemory
    | Sizeof

  /** The name switch of compileCall: the routine an import of this name lowers to, if any. */
  function IntrinsicFor(name: string): Option<Routine>
  {
    match name
    case "rotl" | "rotll" => Some(Rotl)
    case "rotr" | "rotrl" => Some(Rotr)
    case "clz" | "clzl" => Some(Clz)
    case "ctz" | "ctzl" => Some(Ctz)
    case "popcnt" | "popcntl" => Some(Popcnt)
    case "abs" | "absf" => Some(Abs)
    case "ceil" | "ceilf" => Some(Ceil)
    case "floor" | "floorf" => Some(Floor)
    case "sqrt" | "sqrtf" => Some(Sqrt)
    case "trunc" | "truncf" => Some(Trunc)
    case "nearest" | "nearestf" => Some(Nearest)
    case "min" | "minf" => Some(Min)
    case "max" | "maxf" => Some(Max)
    case "copysign" | "copysignf" => Some(Copysign)
    case "reinterpreti" | "reinterpretl" | "reinterpretf" | "reinterpretd" => Some(Reinterpret)
    case "current_memory" => Some(CurrentMemory)
    case "grow_memory" => Some(GrowMemory)
    case "sizeof" => Some(Sizeof)
    case _ => None
  }

  /**
   * The family view of the same table: the import names (32/64-bit or
   * integer/float variants) that share one routine.
   */
  function NamesOf(r: Routine): set<string>
  {
    match r
    case Rotl => {"rotl", "rotll"}
    case Rotr => {"rotr", "rotrl"}
    case Clz => {"clz", "clzl"}
    case Ctz => {"ctz", "ctzl"}
    case Popcnt => {"popcnt", "popcntl"}
    case Abs => {"abs", "absf"}
    case Ceil => {"ceil", "ceilf"}
    case Floor => {"floor", "floorf"}
    case Sqrt => {"sqrt", "sqrtf"}
    case Trunc => {"trunc", "truncf"}
    case Nearest => {"nearest", "nearestf"}
    case Min => {"min", "minf"}
    case Max => {"max", "maxf"}
    case Copysign => {"copysign", "copysignf"}
    case Reinterpret => {"reinterpreti", "reinterpretl", "reinterpretf", "reinterpretd"}
    case CurrentMemory => {"current_memory"}
    case GrowMemory => {"grow_memory"}
    case Sizeof => {"sizeof"}
  }

  /**
   * How many compiled argument values each routine is handed: two for the
   * binary families, none for the memory-size query and for sizeof (which
   * takes a type argument instead), one for every other family.
   */
  function ValueArity(r: Routine): nat
  {
    match r
    case Rotl | Rotr | Min | Max | Copysign => 2
    case CurrentMemory | Sizeof => 0
    case Clz | Ctz | Popcnt | Abs | Ceil | Floor | Sqrt | Trunc | Nearest | Reinterpret | GrowMemory => 1
  }

  /** The name switch and the family view describe the same table, in both directions. */
  lemma TableMatchesFamilies(name: string, r: Routine)
    ensures IntrinsicFor(name) == Some(r) <==> name in NamesOf(r)
  {
  }

  /** No import name belongs to two families, so the switch never has to choose. */
  lemma FamiliesDisjoint(name: string, r1: Routine, r2: Routine)
    requires name in NamesOf(r1) && name in NamesOf(r2)
    ensures r1 == r2
  {
    TableMatchesFamilies(name, r1);
    TableMatchesFamilies(name, r2);
  }
}
