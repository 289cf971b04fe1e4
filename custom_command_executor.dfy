/**
 * `CustomCommandExecutor`: the per-node registry of callbacks (a "normal"
 * list and a "resulting" list) and the engine that picks one callback for a
 * sender, runs it and folds its exceptions into one result.
 *
 * The pure part (tag search, the dispatch chain, the result folding) is a set
 * of functions over the `Registry` value; the class holds the two lists as
 * fields that its mutators reassign.
 */
module CommandExecutor {

  import opened Wrappers
  import opened Text
  import opened Executors

  /** The abstract state of a registry: its two ordered callback lists. */
  datatype Registry = Registry(normal: seq<Executor>, resulting: seq<Executor>)

  /** `matches`: does some callback in the list carry tag `t`? */
  function Matches(execs: seq<Executor>, t: ExecutorType): (r: bool)
    ensures r <==> exists i :: 0 <= i < |execs| && execs[i].kind == t
  {
    if |execs| == 0 then false else execs[0].kind == t || Matches(execs[1..], t)
  }

  /** Index `i` holds the first callback of the list tagged `t`. */
  predicate IsFirstOfType(execs: seq<Executor>, t: ExecutorType, i: int)
  {
    0 <= i < |execs| && execs[i].kind == t && forall j :: 0 <= j < i ==> execs[j].kind != t
  }

  /** `filter(o -> o.getType() == type).findFirst()`, as an index into the list. */
  function FirstOfType(execs: seq<Executor>, t: ExecutorType): (r: Option<nat>)
    ensures r.None? <==> !Matches(execs, t)
    ensures r.Some? ==> IsFirstOfType(execs, t, r.value)
  {
    if |execs| == 0 then None
    else if execs[0].kind == t then Some(0)
    else
      match FirstOfType(execs[1..], t)
      case None => None
      case Some(i) => Some(i + 1)
  }

  /**
   * The private `execute(executors, sender, args, type)`: run the first
   * callback tagged `t`. When there is none, `Optional.get()` throws a
   * `NoSuchElementException`, an ordinary `Exception`.
   */
  function ExecuteTyped(execs: seq<Executor>, sender: Sender, args: seq<object?>, t: ExecutorType): (r: Outcome)
    ensures !Matches(execs, t) ==> r == OtherFault
    ensures Matches(execs, t) ==>
      exists i :: IsFirstOfType(execs, t, i) && r == execs[i].run(sender, args)
  {
    match FirstOfType(execs, t)
    case None => OtherFault
    case Some(i) => execs[i].run(sender, args)
  }

  /** `isEmpty`: neither list holds a callback. */
  predicate IsEmpty(reg: Registry)
  {
    |reg.normal| == 0 && |reg.resulting| == 0
  }

  /** `isForceNative`: a NATIVE callback is registered in either list. */
  function IsForceNative(reg: Registry): (r: bool)
    ensures r <==>
      (exists i :: 0 <= i < |reg.normal| && reg.normal[i].kind == Native) ||
      (exists i :: 0 <= i < |reg.resulting| && reg.resulting[i].kind == Native)
  {
    Matches(reg.normal, Native) || Matches(reg.resulting, Native)
  }

  /** The sender passes the `instanceof` test for `t` and the list has a callback tagged `t`. */
  predicate Applicable(sender: Sender, execs: seq<Executor>, t: ExecutorType)
  {
    Satisfies(sender, t) && Matches(execs, t)
  }

  /**
   * The if/else-if chain of the private `execute(executors, sender, args)`:
   * the tag whose callback will run, or None when no branch applies.
   */
  function SelectType(forceNative: bool, sender: Sender, execs: seq<Executor>): (r: Option<ExecutorType>)
    ensures forceNative ==> r == Some(Native)
    ensures !forceNative && r.Some? ==>
      r.value != Native && Applicable(sender, execs, r.value) &&
      forall t :: Rank(t) < Rank(r.value) ==> !Applicable(sender, execs, t)
    ensures !forceNative && r.None? ==> forall t :: !Applicable(sender, execs, t)
  {
    if forceNative then Some(Native)
    else if sender.isPlayer && Matches(execs, Player) then Some(Player)
    else if sender.isEntity && Matches(execs, Entity) then Some(Entity)
    else if sender.isConsole && Matches(execs, Console) then Some(Console)
    else if sender.isBlock && Matches(execs, Block) then Some(Block)
    else if sender.isProxy && Matches(execs, Proxy) then Some(Proxy)
    else if Matches(execs, All) then Some(All)
    else None
  }

  /** The message of the syntax failure thrown when no branch of the chain applies. */
  function NoImplementationMessage(sender: Sender): (m: string)
    ensures |m| == 40 + |sender.simpleName| && m[..40] == "This command has no implementations for "
    ensures forall k :: 40 <= k < |m| ==> m[k] == LowerChar(sender.simpleName[k - 40]) && !IsUpper(m[k])
  {
    "This command has no implementations for " + Lower(sender.simpleName)
  }

  /** The private `execute(executors, sender, args)`: select a tag, then run its first callback. */
  function ExecuteList(forceNative: bool, execs: seq<Executor>, sender: Sender, args: seq<object?>): Outcome
  {
    match SelectType(forceNative, sender, execs)
    case None => SyntaxFail(NoImplementationMessage(sender))
    case Some(t) => ExecuteTyped(execs, sender, args, t)
  }

  /**
   * The two `catch` clauses of the public `execute`: a wrapped syntax
   * exception is unwrapped and rethrown, any other `Exception` is logged and
   * turned into 0, and an `Error` is not caught at all.
   */
  function Catch(o: Outcome): Result
  {
    match o
    case Returns(code) => Value(code)
    case SyntaxFail(message) => SyntaxError(message)
    case OtherFault => Value(0)
    case ErrorThrown(error) => ErrorPropagated(error)
  }

  /** The list dispatch searches: the resulting list whenever it is non-empty. */
  function ChosenList(reg: Registry): (r: seq<Executor>)
    ensures |reg.resulting| > 0 ==> r == reg.resulting
    ensures |reg.resulting| == 0 ==> r == reg.normal
    ensures |r| == 0 <==> IsEmpty(reg)
  {
    if |reg.resulting| > 0 then reg.resulting else reg.normal
  }

  /** The public `execute(sender, arguments)` as a function of the registry's state. */
  function Dispatch(reg: Registry, sender: Sender, args: seq<object?>): Result
  {
    Catch(ExecuteList(IsForceNative(reg), ChosenList(reg), sender, args))
  }

  /** `mergeExecutor`: a new registry holding this one's callbacks followed by the other's. */
  function Merge(a: Registry, b: Registry): Registry
  {
    Registry(a.normal + b.normal, a.resulting + b.resulting)
  }

  /** A command node's callback registry, with the two lists as mutable fields. */
  class CustomCommandExecutor {

    var normalExecutors: seq<Executor>
    var resultingExecutors: seq<Executor>

    function Model(): Registry
      reads this
    {
      Registry(normalExecutors, resultingExecutors)
    }

    constructor ()
      ensures normalExecutors == [] && resultingExecutors == []
      ensures IsEmpty(Model())
    {
      normalExecutors := [];
      resultingExecutors := [];
    }

    method AddNormalExecutor(ex: Executor)
      modifies this
      ensures normalExecutors == old(normalExecutors) + [ex]
      ensures resultingExecutors == old(resultingExecutors)
    {
      normalExecutors := normalExecutors + [ex];
    }

    method AddResultingExecutor(ex: Executor)
      modifies this
      ensures resultingExecutors == old(resultingExecutors) + [ex]
      ensures normalExecutors == old(normalExecutors)
    {
      resultingExecutors := resultingExecutors + [ex];
    }

    method SetNormalExecutors(execs: seq<Executor>)
      modifies this
      ensures normalExecutors == execs
      ensures resultingExecutors == old(resultingExecutors)
    {
      normalExecutors := execs;
    }

    method SetResultingExecutors(execs: seq<Executor>)
      modifies this
      ensures resultingExecutors == execs
      ensures normalExecutors == old(normalExecutors)
    {
      resultingExecutors := execs;
    }

    /** Builds a fresh registry; neither this one nor `other` changes. */
    method MergeExecutor(other: CustomCommandExecutor) returns (result: CustomCommandExecutor)
      ensures fresh(result)
      ensures result.normalExecutors == normalExecutors + other.normalExecutors
      ensures result.resultingExecutors == resultingExecutors + other.resultingExecutors
      ensures result.Model() == Merge(Model(), other.Model())
    {
      result := new CustomCommandExecutor();
      result.normalExecutors := normalExecutors;
      result.resultingExecutors := resultingExecutors;
      result.normalExecutors := result.normalExecutors + other.normalExecutors;
      result.resultingExecutors := result.resultingExecutors + other.resultingExecutors;
    }

    /** The public `execute`: run the chosen list and fold what the callback threw. */
    method Execute(sender: Sender, args: seq<object?>) returns (r: Result)
      ensures r == Dispatch(Model(), sender, args)
    {
      var forceNative := IsForceNative(Model());
      var outcome: Outcome;
      if |resultingExecutors| > 0 {
        outcome := ExecuteList(forceNative, resultingExecutors, sender, args);
      } else {
        outcome := ExecuteList(forceNative, normalExecutors, sender, args);
      }
      match outcome {
        case SyntaxFail(message) =>
          r := SyntaxError(message);
        case OtherFault =>
          r := Value(0);
        case Returns(code) =>
          r := Value(code);
        case ErrorThrown(error) =>
          r := ErrorPropagated(error);
      }
    }
  }
}
