/**
 * The vocabulary of the dispatch engine: the tag every registered callback
 * carries, the command sender seen as a set of capabilities, and what a
 * callback does when it is run.
 */
module Executors {

  /** `ExecutorType`: the kind of sender a callback was registered for. */
  datatype ExecutorType = Player | Entity | Console | Block | Proxy | Native | All

  /**
   * A command sender, described by the host classes it is an instance of
   * (a player is also an entity, so several flags may hold at once) and by
   * the simple name of its concrete class, which only appears in messages.
   */
  datatype Sender = Sender(
    isPlayer: bool,
    isEntity: bool,
    isConsole: bool,
    isBlock: bool,
    isProxy: bool,
    simpleName: string)

  /**
   * What running a callback with a given sender and argument array does:
   * return an integer, throw a `WrapperCommandSyntaxException` carrying a
   * syntax failure with the given message, throw any other
   * `java.lang.Exception`, or throw a `java.lang.Error` (identified by its
   * class name), which is not an `Exception` and so escapes both `catch`
   * clauses.
   */
  datatype Outcome =
    | Returns(code: int)
    | SyntaxFail(message: string)
    | OtherFault
    | ErrorThrown(error: string)

  /**
   * A registered callback (`IExecutorTyped`): its tag and its behaviour.
   * Normal and resulting callbacks have the same shape here; which list holds
   * them is what tells them apart.
   */
  datatype Executor = Executor(kind: ExecutorType, run: (Sender, seq<object?>) -> Outcome)

  /**
   * What the public `execute` hands back to its caller: an integer, a thrown
   * `CommandSyntaxException` with its message, or a `java.lang.Error` that
   * passed through uncaught.
   */
  datatype Result = Value(code: int) | SyntaxError(message: string) | ErrorPropagated(error: string)

  /** Does the sender pass the `instanceof` test the dispatch chain makes for tag `t`? */
  predicate Satisfies(sender: Sender, t: ExecutorType)
  {
    match t
    case Player => sender.isPlayer
    case Entity => sender.isEntity
    case Console => sender.isConsole
    case Block => sender.isBlock
    case Proxy => sender.isProxy
    case All => true
    case Native => false
  }

  /** The dispatch chain tests sender tags in this order, most specific first. */
  const Precedence: seq<ExecutorType> := [Player, Entity, Console, Block, Proxy, All]

  /** Position of a tag in `Precedence`; NATIVE is never tested against the sender. */
  function Rank(t: ExecutorType): (n: nat)
    ensures t != Native ==> n < |Precedence| && Precedence[n] == t
    ensures t == Native ==> n == |Precedence|
  {
    match t
    case Player => 0
    case Entity => 1
    case Console => 2
    case Block => 3
    case Proxy => 4
    case All => 5
    case Native => 6
  }
}
