/** The abstract target code: promises and bundles of the agent language,
    and which bundle calls of a promise sequence actually run. */
module Cfengine {
  import opened Wrappers
  import opened Conditions

  /** One statement: a call of a bundle with its reporting component, its
      report identity and its arguments, or such a statement guarded by a
      condition that must hold (`if`) or must not hold (`unless`). */
  datatype Promise =
    | UseBundle(bundle: string, component: Option<string>, id: Option<string>, args: seq<string>)
    | IfCondition(cond: Condition, inner: Promise)
    | UnlessCondition(cond: Condition, inner: Promise)

  /** A named agent bundle with its formal parameters and its promises. */
  datatype Bundle = Bundle(name: string, parameters: seq<string>, promises: seq<Promise>)

  /** The bundle calls one promise performs at run time. */
  function Runs(p: Promise, env: string -> bool): seq<Promise>
  {
    match p
    case UseBundle(_, _, _, _) => [p]
    case IfCondition(c, q) => if Holds(c, env) then Runs(q, env) else []
    case UnlessCondition(c, q) => if Holds(c, env) then [] else Runs(q, env)
  }

  /** The bundle calls a promise sequence performs at run time, in order. */
  function Trace(ps: seq<Promise>, env: string -> bool): seq<Promise>
  {
    if |ps| == 0 then [] else Runs(ps[0], env) + Trace(ps[1..], env)
  }

  /** Running two sequences one after the other performs the calls of the
      first, then those of the second. */
  lemma {:induction false} TraceAppend(a: seq<Promise>, b: seq<Promise>, env: string -> bool)
    ensures Trace(a + b, env) == Trace(a, env) + Trace(b, env)
  {
    if |a| == 0 {
      assert a + b == b;
    } else {
      assert (a + b)[1..] == a[1..] + b;
      TraceAppend(a[1..], b, env);
    }
  }

  /** Every promise, however guarded, names `unique` as its report identity. */
  predicate TaggedWith(p: Promise, unique: string)
  {
    match p
    case UseBundle(_, _, id, _) => id == Some(unique)
    case IfCondition(_, q) => TaggedWith(q, unique)
    case UnlessCondition(_, q) => TaggedWith(q, unique)
  }
}
