/**
 * What the registry and the dispatch engine of `CustomCommandExecutor`
 * guarantee: which list is searched, which tag wins, which callback of that
 * tag runs, how its exceptions are folded, and what merging does.
 */
module DispatchProperties {

  import opened Wrappers
  import opened Text
  import opened Executors
  import opened CommandExecutor

  // ---------------------------------------------------------------------------
  // Tag search over concatenated lists (what merging relies on)
  // ---------------------------------------------------------------------------

  /** A tag occurs in a concatenation exactly when it occurs in one of the parts. */
  lemma {:induction false} MatchesConcat(a: seq<Executor>, b: seq<Executor>, t: ExecutorType)
    ensures Matches(a + b, t) <==> Matches(a, t) || Matches(b, t)
  {
    if Matches(a + b, t) {
      var i :| 0 <= i < |a + b| && (a + b)[i].kind == t;
      if i < |a| {
        assert a[i].kind == t;
      } else {
        assert b[i - |a|].kind == t;
      }
    }
    if Matches(a, t) {
      var i :| 0 <= i < |a| && a[i].kind == t;
      assert (a + b)[i].kind == t;
    }
    if Matches(b, t) {
      var i :| 0 <= i < |b| && b[i].kind == t;
      assert (a + b)[|a| + i].kind == t;
    }
  }

  /** The first callback of a tag is unique: `FirstOfType` finds exactly that one. */
  lemma FirstOfTypeUnique(execs: seq<Executor>, t: ExecutorType, i: int)
    requires IsFirstOfType(execs, t, i)
    ensures FirstOfType(execs, t) == Some(i)
  {
  }

  /**
   * Searching a concatenation: a callback of the first part wins; otherwise
   * the search continues into the second part, shifted by the first's length.
   */
  lemma {:induction false} FirstOfTypeConcat(a: seq<Executor>, b: seq<Executor>, t: ExecutorType)
    ensures Matches(a, t) ==> FirstOfType(a + b, t) == FirstOfType(a, t)
    ensures !Matches(a, t) ==>
      FirstOfType(a + b, t) == (match FirstOfType(b, t) case None => None case Some(j) => Some(|a| + j))
  {
    MatchesConcat(a, b, t);
    if Matches(a, t) {
      var i := FirstOfType(a, t).value;
      assert IsFirstOfType(a + b, t, i) by {
        forall j | 0 <= j < i ensures (a + b)[j].kind != t {
          assert a[j].kind != t;
        }
      }
      FirstOfTypeUnique(a + b, t, i);
    } else if Matches(b, t) {
      var j := FirstOfType(b, t).value;
      assert IsFirstOfType(a + b, t, |a| + j) by {
        forall k | 0 <= k < |a| + j ensures (a + b)[k].kind != t {
          if k < |a| {
            assert a[k].kind != t;
          } else {
            assert b[k - |a|].kind != t;
          }
        }
      }
      FirstOfTypeUnique(a + b, t, |a| + j);
    }
  }

  // ---------------------------------------------------------------------------
  // Registry operations
  // ---------------------------------------------------------------------------

  /** A registry is empty exactly when no tag at all is registered in either list. */
  lemma IsEmptyIffNoCallback(reg: Registry)
    ensures IsEmpty(reg) <==> forall t :: !Matches(reg.normal, t) && !Matches(reg.resulting, t)
  {
    if !IsEmpty(reg) {
      if |reg.normal| > 0 {
        assert Matches(reg.normal, reg.normal[0].kind);
      } else {
        assert Matches(reg.resulting, reg.resulting[0].kind);
      }
    }
  }

  /**
   * `mergeExecutor` is emptiness- and native-preserving: the merged registry
   * is empty only when both inputs are, and forces native dispatch exactly
   * when one of the inputs does.
   */
  lemma MergeEmptyAndNative(a: Registry, b: Registry)
    ensures IsEmpty(Merge(a, b)) <==> IsEmpty(a) && IsEmpty(b)
    ensures IsForceNative(Merge(a, b)) <==> IsForceNative(a) || IsForceNative(b)
  {
    MatchesConcat(a.normal, b.normal, Native);
    MatchesConcat(a.resulting, b.resulting, Native);
  }

  /**
   * Merging keeps the earlier registration first: for every tag the receiver
   * already has, the callback found for that tag in the merged lists is the
   * receiver's own.
   */
  lemma MergeKeepsFirstRegistration(a: Registry, b: Registry, t: ExecutorType)
    ensures Matches(a.normal, t) ==> FirstOfType(Merge(a, b).normal, t) == FirstOfType(a.normal, t)
    ensures Matches(a.resulting, t) ==> FirstOfType(Merge(a, b).resulting, t) == FirstOfType(a.resulting, t)
  {
    FirstOfTypeConcat(a.normal, b.normal, t);
    FirstOfTypeConcat(a.resulting, b.resulting, t);
  }

  /** Merging with an empty registry, on either side, changes nothing. */
  lemma MergeEmptyIdentity(a: Registry, e: Registry)
    requires IsEmpty(e)
    ensures Merge(a, e) == a && Merge(e, a) == a
  {
  }

  // ---------------------------------------------------------------------------
  // The dispatch chain against a data-driven precedence table
  // ---------------------------------------------------------------------------

  /** Reference definition: the first tag of `order` that is applicable. */
  function FirstApplicable(order: seq<ExecutorType>, sender: Sender, execs: seq<Executor>): (r: Option<ExecutorType>)
    ensures r.Some? ==> r.value in order && Applicable(sender, execs, r.value)
    ensures r.None? ==> forall k :: 0 <= k < |order| ==> !Applicable(sender, execs, order[k])
  {
    if |order| == 0 then None
    else if Applicable(sender, execs, order[0]) then Some(order[0])
    else FirstApplicable(order[1..], sender, execs)
  }

  /**
   * Without a NATIVE override, the hand-written if/else-if chain selects the
   * same tag as walking the table PLAYER, ENTITY, CONSOLE, BLOCK, PROXY, ALL.
   */
  lemma {:induction false} SelectTypeFollowsPrecedence(sender: Sender, execs: seq<Executor>)
    ensures SelectType(false, sender, execs) == FirstApplicable(Precedence, sender, execs)
  {
    var r := FirstApplicable(Precedence, sender, execs);
    var s := SelectType(false, sender, execs);
    if s.Some? {
      // the first applicable tag of the table has rank s.value's rank
      assert Precedence[Rank(s.value)] == s.value;
      FirstApplicableAt(Precedence, sender, execs, Rank(s.value));
    }
  }

  /**
   * If the tag at position `k` of `order` is applicable and none before it
   * is, the table walk returns exactly that tag.
   */
  lemma {:induction false} FirstApplicableAt(order: seq<ExecutorType>, sender: Sender, execs: seq<Executor>, k: nat)
    requires k < |order| && Applicable(sender, execs, order[k])
    requires forall j :: 0 <= j < k ==> !Applicable(sender, execs, order[j])
    ensures FirstApplicable(order, sender, execs) == Some(order[k])
  {
    if k > 0 {
      assert !Applicable(sender, execs, order[0]);
      FirstApplicableAt(order[1..], sender, execs, k - 1);
    }
  }

  // ---------------------------------------------------------------------------
  // Dispatch
  // ---------------------------------------------------------------------------

  /** Proof step: `Dispatch` unfolded through `ExecuteList` and `Catch`. */
  lemma DispatchRunsSelected(reg: Registry, sender: Sender, args: seq<object?>)
    ensures SelectType(IsForceNative(reg), sender, ChosenList(reg)).None? ==>
      Dispatch(reg, sender, args) == SyntaxError(NoImplementationMessage(sender))
    ensures SelectType(IsForceNative(reg), sender, ChosenList(reg)).Some? ==>
      Dispatch(reg, sender, args) ==
        Catch(ExecuteTyped(ChosenList(reg), sender, args, SelectType(IsForceNative(reg), sender, ChosenList(reg)).value))
  {
  }

  /** Rank determines the tag. */
  lemma RankInjective(t: ExecutorType, u: ExecutorType)
    requires Rank(t) == Rank(u)
    ensures t == u
  {
  }

  /**
   * Sender-based dispatch: without a NATIVE registration anywhere, when tag
   * `t` is applicable to the sender in the chosen list and no tag ahead of it
   * in the precedence is, the first callback tagged `t` in the chosen list is
   * the one that runs, and its outcome is folded into the result.
   */
  lemma DispatchBySender(reg: Registry, sender: Sender, args: seq<object?>, t: ExecutorType)
    requires !IsForceNative(reg)
    requires Applicable(sender, ChosenList(reg), t)
    requires forall u :: Rank(u) < Rank(t) ==> !Applicable(sender, ChosenList(reg), u)
    ensures exists i ::
      IsFirstOfType(ChosenList(reg), t, i) &&
      Dispatch(reg, sender, args) == Catch(ChosenList(reg)[i].run(sender, args))
  {
    var execs := ChosenList(reg);
    var s := SelectType(false, sender, execs);
    assert s.Some?;
    assert Rank(s.value) == Rank(t);
    RankInjective(s.value, t);
    DispatchRunsSelected(reg, sender, args);
  }

  /**
   * The tie-break between overlapping sender kinds: a player (also an
   * entity) with both PLAYER and ENTITY callbacks in the chosen list gets
   * the first PLAYER callback.
   */
  lemma PlayerBeatsEntity(reg: Registry, sender: Sender, args: seq<object?>)
    requires !IsForceNative(reg)
    requires sender.isPlayer && sender.isEntity
    requires Matches(ChosenList(reg), Player) && Matches(ChosenList(reg), Entity)
    ensures exists i ::
      IsFirstOfType(ChosenList(reg), Player, i) &&
      Dispatch(reg, sender, args) == Catch(ChosenList(reg)[i].run(sender, args))
  {
    DispatchBySender(reg, sender, args, Player);
  }

  /**
   * NATIVE override: when the chosen list holds a NATIVE callback, its first
   * one runs, whatever the sender is and whatever else is registered.
   */
  lemma DispatchNativeOverride(reg: Registry, sender: Sender, args: seq<object?>)
    requires Matches(ChosenList(reg), Native)
    ensures exists i ::
      IsFirstOfType(ChosenList(reg), Native, i) &&
      Dispatch(reg, sender, args) == Catch(ChosenList(reg)[i].run(sender, args))
  {
    var i :| 0 <= i < |ChosenList(reg)| && ChosenList(reg)[i].kind == Native;
    assert IsForceNative(reg) by {
      if |reg.resulting| > 0 {
        assert reg.resulting[i].kind == Native;
      } else {
        assert reg.normal[i].kind == Native;
      }
    }
    DispatchRunsSelected(reg, sender, args);
  }

  /**
   * A NATIVE callback registered only in the list that is not searched still
   * forces the NATIVE branch; the lookup then finds nothing and the
   * resulting `NoSuchElementException` is swallowed into 0.
   */
  lemma NativeOnlyInOtherListYieldsZero(reg: Registry, sender: Sender, args: seq<object?>)
    requires IsForceNative(reg)
    requires !Matches(ChosenList(reg), Native)
    ensures Dispatch(reg, sender, args) == Value(0)
  {
  }

  /**
   * No branch of the chain applies: dispatch fails with the syntax error
   * naming the sender's lower-cased class name; it is not turned into 0.
   */
  lemma DispatchNoImplementation(reg: Registry, sender: Sender, args: seq<object?>)
    requires !IsForceNative(reg)
    requires forall t :: !Applicable(sender, ChosenList(reg), t)
    ensures Dispatch(reg, sender, args) ==
      SyntaxError("This command has no implementations for " + Lower(sender.simpleName))
  {
  }

  /** An empty registry has nothing to run: every dispatch is a "no implementations" syntax error. */
  lemma EmptyRegistryHasNoImplementation(reg: Registry, sender: Sender, args: seq<object?>)
    requires IsEmpty(reg)
    ensures Dispatch(reg, sender, args) == SyntaxError(NoImplementationMessage(sender))
  {
  }

  /**
   * What can cross the boundary: a syntax error is either the "no
   * implementations" one or the very failure a callback of the chosen list
   * threw; a value is 0 or what a callback of the chosen list returned; an
   * uncaught `Error` is one a callback of the chosen list threw.
   */
  lemma DispatchOutcomeOrigin(reg: Registry, sender: Sender, args: seq<object?>)
    ensures Dispatch(reg, sender, args).SyntaxError? ==>
      Dispatch(reg, sender, args).message == NoImplementationMessage(sender) ||
      exists i :: 0 <= i < |ChosenList(reg)| &&
        ChosenList(reg)[i].run(sender, args) == SyntaxFail(Dispatch(reg, sender, args).message)
    ensures Dispatch(reg, sender, args).Value? ==>
      Dispatch(reg, sender, args).code == 0 ||
      exists i :: 0 <= i < |ChosenList(reg)| &&
        ChosenList(reg)[i].run(sender, args) == Returns(Dispatch(reg, sender, args).code)
    ensures Dispatch(reg, sender, args).ErrorPropagated? ==>
      exists i :: 0 <= i < |ChosenList(reg)| &&
        ChosenList(reg)[i].run(sender, args) == ErrorThrown(Dispatch(reg, sender, args).error)
  {
  }

  /**
   * When the resulting list is non-empty the normal list plays no part in
   * choosing or running the callback: replacing it by any list with the
   * same NATIVE-ness leaves every dispatch unchanged.
   */
  lemma ResultingShadowsNormal(n1: seq<Executor>, n2: seq<Executor>, res: seq<Executor>, sender: Sender, args: seq<object?>)
    requires |res| > 0
    requires Matches(n1, Native) == Matches(n2, Native)
    ensures Dispatch(Registry(n1, res), sender, args) == Dispatch(Registry(n2, res), sender, args)
  {
  }

  /**
   * The normal list is not a fallback: with a non-empty resulting list that
   * has nothing for the sender, dispatch fails even if the normal list holds
   * an ALL callback.
   */
  lemma NormalIsNoFallback(reg: Registry, sender: Sender, args: seq<object?>)
    requires |reg.resulting| > 0 && !IsForceNative(reg)
    requires forall t :: !Applicable(sender, reg.resulting, t)
    ensures Dispatch(reg, sender, args) == SyntaxError(NoImplementationMessage(sender))
  {
  }

  // ---------------------------------------------------------------------------
  // Worked scenarios
  // ---------------------------------------------------------------------------

  /** A player-or-console sender of the given class name. */
  function PlayerSender(): Sender { Sender(true, true, false, false, false, "CraftPlayer") }
  function ConsoleSender(): Sender { Sender(false, false, true, false, false, "CraftConsoleCommandSender") }

  /**
   * Resulting callbacks PLAYER (returns 5) and ALL (returns 9): a player gets
   * 5, the console gets 9.
   */
  lemma PlayerAndAllScenario(args: seq<object?>)
    ensures
      var reg := Registry([], [Executor(Player, (s, a) => Returns(5)), Executor(All, (s, a) => Returns(9))]);
      Dispatch(reg, PlayerSender(), args) == Value(5) && Dispatch(reg, ConsoleSender(), args) == Value(9)
  {
    var player := Executor(Player, (s, a) => Returns(5));
    var all := Executor(All, (s, a) => Returns(9));
    var reg := Registry([], [player, all]);
    assert ChosenList(reg) == [player, all];
    assert !IsForceNative(reg) by {
      assert !Matches([all], Native);
      assert !Matches([player, all], Native);
    }
    assert Matches([player, all], Player);
    assert FirstOfType([player, all], Player) == Some(0);
    assert SelectType(false, PlayerSender(), [player, all]) == Some(Player);
    DispatchRunsSelected(reg, PlayerSender(), args);
    assert !Matches([all], Console);
    assert !Matches([player, all], Console);
    assert FirstOfType([all], All) == Some(0);
    assert FirstOfType([player, all], All) == Some(1);
    assert SelectType(false, ConsoleSender(), [player, all]) == Some(All);
    DispatchRunsSelected(reg, ConsoleSender(), args);
  }

  /** A wrapped syntax failure thrown by the selected callback reaches the caller unchanged. */
  lemma WrappedFailureScenario(args: seq<object?>)
    ensures
      var reg := Registry([Executor(All, (s, a) => SyntaxFail("bad arg"))], []);
      Dispatch(reg, ConsoleSender(), args) == SyntaxError("bad arg")
  {
    var all := Executor(All, (s, a) => SyntaxFail("bad arg"));
    var reg := Registry([all], []);
    assert ChosenList(reg) == [all];
    assert !IsForceNative(reg) by {
      assert !Matches([all], Native);
      assert !Matches([], Native);
    }
    assert !Matches([all], Console);
    assert FirstOfType([all], All) == Some(0);
    assert SelectType(false, ConsoleSender(), [all]) == Some(All);
    DispatchRunsSelected(reg, ConsoleSender(), args);
  }

  /**
   * Only `Exception`s are contained: a `java.lang.Error` thrown by the
   * selected callback is not turned into 0 but reaches the caller.
   */
  lemma ErrorPropagatesScenario(args: seq<object?>)
    ensures
      var reg := Registry([Executor(All, (s, a) => ErrorThrown("StackOverflowError"))], []);
      Dispatch(reg, ConsoleSender(), args) == ErrorPropagated("StackOverflowError")
  {
    var all := Executor(All, (s, a) => ErrorThrown("StackOverflowError"));
    var reg := Registry([all], []);
    assert ChosenList(reg) == [all];
    assert !IsForceNative(reg) by {
      assert !Matches([all], Native);
      assert !Matches([], Native);
    }
    assert !Matches([all], Console);
    assert FirstOfType([all], All) == Some(0);
    assert SelectType(false, ConsoleSender(), [all]) == Some(All);
    DispatchRunsSelected(reg, ConsoleSender(), args);
  }
}
