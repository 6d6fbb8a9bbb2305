/**
 Trees of map, catch and finally futures, what settling a future gives its children, and the
 recursive evaluation of a tree that the flat walk of future.c replaces.
 */
module FutureTree {

  type Payload(!new)
  type Error(!new)

  /** A zval: undefined, null or something else. */
  datatype Value = Undef | Null | Defined(payload: Payload)

  datatype Outcome = Done(value: Value) | Failed(error: Error)

  datatype Argument = Plain(value: Value) | Caught(error: Error)

  datatype Reaction = Returned(value: Value) | Threw(error: Error)

  datatype Kind = Map | Catch | Finally

  /** `watched`: somebody else awaits the future and takes its rejection. */
  datatype Future = Future(
    id: nat,
    kind: Kind,
    mapper: Argument -> Reaction,
    watched: bool,
    children: seq<Future>)

  type Outcomes = map<nat, Outcome>

  /** The argument is never undefined. */
  function Defaulted(v: Value): Value { if v.Undef? then Null else v }

  /** The mapper is called: map only after success, catch only after failure, finally always. */
  predicate Calls(kind: Kind, parent: Outcome) {
    match kind
    case Map => parent.Done?
    case Catch => parent.Failed?
    case Finally => true
  }

  function ArgumentOf(parent: Outcome): Argument {
    match parent
    case Done(v) => Plain(Defaulted(v))
    case Failed(e) => Caught(e)
  }

  /** What a pending child is settled with once its parent is settled. */
  function Settle(f: Future, parent: Outcome): Outcome {
    var reaction := if Calls(f.kind, parent) then f.mapper(ArgumentOf(parent)) else Returned(Undef);
    if reaction.Threw? then
      Failed(reaction.error)
    else if parent.Failed? && !f.kind.Catch? then
      parent
    else if f.kind.Finally? && !parent.value.Undef? then
      parent
    else if !reaction.value.Undef? then
      Done(reaction.value)
    else
      Done(if parent.Done? then Defaulted(parent.value) else Null)
  }

  /** Evaluation by recursion: a future settled before the walk is left alone, and so is
      everything below it. */
  function Eval(f: Future, parent: Outcome, before: set<nat>): Outcomes
    decreases f
  {
    if f.id in before then map[]
    else
      var outcome := Settle(f, parent);
      map[f.id := outcome] + EvalAll(f.children, outcome, before)
  }

  function EvalAll(fs: seq<Future>, parent: Outcome, before: set<nat>): Outcomes
    decreases fs
  {
    if fs == [] then map[] else Eval(fs[0], parent, before) + EvalAll(fs[1..], parent, before)
  }
}
