# CommandAPI executor dispatch and scoreboard slots, in Dafny

This project models two parts of CommandAPI, a command framework for Bukkit
game servers.

The first is `CustomCommandExecutor`. Each command node keeps one of these
registries. It holds two ordered lists of callbacks, "normal" and
"resulting". Every callback is tagged with the kind of sender it serves:
PLAYER, ENTITY, CONSOLE, BLOCK, PROXY, NATIVE or ALL. When a parsed command
is executed, the registry does three things:

- it picks a list: the resulting list whenever it is non-empty;
- it picks a tag: NATIVE if any NATIVE callback is registered, otherwise
  the first of PLAYER, ENTITY, CONSOLE, BLOCK, PROXY, ALL that the sender
  passes and the list holds;
- it runs the first callback with that tag and folds what it throws into
  one result. A wrapped syntax exception is rethrown unwrapped. Any other
  exception becomes the value 0.

The second is `ScoreboardSlot`. It decodes Minecraft's internal slot
number into a display slot plus an optional team colour. It can also be
built from a display slot or from a colour, and it renders itself in
Minecraft's command syntax.

Files:

- `executors.dfy` (module `Executors`): the tags, the sender, a callback
  and its outcome, and the precedence table.
- `custom_command_executor.dfy` (module `CommandExecutor`): the registry
  value, the pure dispatch functions, and the class
  `CustomCommandExecutor`. The class keeps the two lists as `seq` fields,
  and its mutators reassign them.
- `dispatch_properties.dfy` (module `DispatchProperties`): the lemmas about
  dispatch and merging.
- `scoreboard_slot.dfy` (module `ScoreboardSlots`): the slot codec and its
  round trips.
- `text.dfy` and `wrappers.dfy`: lower-casing and `Option`.

Modelling choices:

- A sender is a set of capability flags, one per `instanceof` test the
  dispatch chain makes, plus the simple name of its class. A player is also
  an entity, so two flags can hold at once.
- The sender flags are independent, so the model also admits senders that
  no Bukkit class produces, such as a player that is not an entity. Every
  lemma holds for all flag combinations, so it also holds for the real
  ones, where `isPlayer` implies `isEntity`.
- A callback is a tag plus a function from (sender, argument array) to an
  outcome. The outcome is one of: it returns an integer, it throws a
  wrapped syntax exception with a message, it throws any other
  `java.lang.Exception`, or it throws a `java.lang.Error`. The two
  `catch` clauses only catch `Exception`, so an `Error` such as
  `StackOverflowError` or `NoClassDefFoundError` leaves `execute`
  uncaught.
- The public `execute` returns an integer (`Value`), throws a
  `CommandSyntaxException` (`SyntaxError`), or lets an `Error` through
  (`ErrorPropagated`).
- Normal callbacks return whatever their `executeWith` returns, exactly
  like resulting ones. The code passes that value through verbatim.
  Normal callbacks conventionally return 1, but that value comes from
  callback code that is not part of this model. So the model does not
  assume it.
- `isForceNative` looks at both lists, but the lookup that follows only
  searches the chosen list. If NATIVE is registered only in the list that
  is not searched, `Optional.get()` throws `NoSuchElementException`. That
  exception is caught and the result is 0. The model keeps this behaviour
  (`NativeOnlyInOtherListYieldsZero`).
- `getDisplaySlot` and `getTeamColor` are the fields `displaySlot` and
  `teamColor` of the `ScoreboardSlot` datatype. A `null` colour is
  `None`.
- `getNormalExecutors` and `getResultingExecutors` are the class fields
  themselves.

## Model

| member | source | states |
|---|---|---|
| `CommandExecutor.Matches` | CommandAPI/commandapi-core/src/main/java/dev/jorel/commandapi/CustomCommandExecutor.java:129-131 | true exactly when some callback of the list carries the tag |
| `CommandExecutor.FirstOfType` | CommandAPI/commandapi-core/src/main/java/dev/jorel/commandapi/CustomCommandExecutor.java:110 | the index of the first callback with the tag (every earlier one has another tag); none exactly when no callback carries it |
| `CommandExecutor.ExecuteTyped` | CommandAPI/commandapi-core/src/main/java/dev/jorel/commandapi/CustomCommandExecutor.java:109-111 | runs the first callback with the tag and returns its outcome unchanged; with no such callback the lookup fails with an ordinary fault |
| `CommandExecutor.IsForceNative` | CommandAPI/commandapi-core/src/main/java/dev/jorel/commandapi/CustomCommandExecutor.java:125-127 | true exactly when a NATIVE callback is in the normal list or in the resulting list |
| `CommandExecutor.IsEmpty` | CommandAPI/commandapi-core/src/main/java/dev/jorel/commandapi/CustomCommandExecutor.java:121-123 | defined as both lists being empty; `IsEmptyIffNoCallback` shows that is the same as no tag being registered anywhere |
| `CommandExecutor.NoImplementationMessage` | CommandAPI/commandapi-core/src/main/java/dev/jorel/commandapi/CustomCommandExecutor.java:103-104 | the fixed text "This command has no implementations for " followed by the simple class name lower-cased character by character, so the name part has no upper-case letter |
| `CommandExecutor.ExecuteList` | CommandAPI/commandapi-core/src/main/java/dev/jorel/commandapi/CustomCommandExecutor.java:87-107 | defined as the "no implementations" syntax failure when `SelectType` selects nothing, and otherwise the first callback of the selected tag; `DispatchBySender`, `DispatchNativeOverride` and `DispatchNoImplementation` state its cases |
| `CommandExecutor.Catch` | CommandAPI/commandapi-core/src/main/java/dev/jorel/commandapi/CustomCommandExecutor.java:66-83 | defined as: a returned value passes through, a wrapped syntax failure becomes the same message as a syntax error, any other `Exception` becomes 0, and an `Error` passes through uncaught; `DispatchOutcomeOrigin` states what can come out |
| `CommandExecutor.ChosenList` | CommandAPI/commandapi-core/src/main/java/dev/jorel/commandapi/CustomCommandExecutor.java:64 | the resulting list whenever it is non-empty, and the normal list when the resulting list is empty; the searched list is empty exactly when the whole registry is |
| `CommandExecutor.Dispatch` | CommandAPI/commandapi-core/src/main/java/dev/jorel/commandapi/CustomCommandExecutor.java:61-85 | defined as `Catch` of `ExecuteList` on the chosen list, with NATIVE forced by either list; the `DispatchProperties` lemmas characterise it |
| `CommandExecutor.Merge` | CommandAPI/commandapi-core/src/main/java/dev/jorel/commandapi/CustomCommandExecutor.java:133-140 | defined as concatenating normal with normal and resulting with resulting; `MergeEmptyAndNative`, `MergeKeepsFirstRegistration` and `MergeEmptyIdentity` state its properties |
| `CommandExecutor.SelectType` | CommandAPI/commandapi-core/src/main/java/dev/jorel/commandapi/CustomCommandExecutor.java:87-106 | NATIVE when forced; otherwise a tag that the sender passes and the list holds, with no such tag ahead of it in the precedence; none only when no tag at all applies |
| `CommandExecutor.CustomCommandExecutor.constructor` | CommandAPI/commandapi-core/src/main/java/dev/jorel/commandapi/CustomCommandExecutor.java:48-51 | a new registry has two empty lists |
| `CommandExecutor.CustomCommandExecutor.AddNormalExecutor` | CommandAPI/commandapi-core/src/main/java/dev/jorel/commandapi/CustomCommandExecutor.java:53-55 | appends to the end of the normal list; the resulting list is unchanged |
| `CommandExecutor.CustomCommandExecutor.AddResultingExecutor` | CommandAPI/commandapi-core/src/main/java/dev/jorel/commandapi/CustomCommandExecutor.java:57-59 | appends to the end of the resulting list; the normal list is unchanged |
| `CommandExecutor.CustomCommandExecutor.SetNormalExecutors` | CommandAPI/commandapi-core/src/main/java/dev/jorel/commandapi/CustomCommandExecutor.java:142-144 | replaces the normal list wholesale; the resulting list is unchanged |
| `CommandExecutor.CustomCommandExecutor.SetResultingExecutors` | CommandAPI/commandapi-core/src/main/java/dev/jorel/commandapi/CustomCommandExecutor.java:146-148 | replaces the resulting list wholesale; the normal list is unchanged |
| `CommandExecutor.CustomCommandExecutor.MergeExecutor` | CommandAPI/commandapi-core/src/main/java/dev/jorel/commandapi/CustomCommandExecutor.java:133-140 | a fresh registry whose lists are the receiver's followed by the argument's; neither input changes |
| `CommandExecutor.CustomCommandExecutor.Execute` | CommandAPI/commandapi-core/src/main/java/dev/jorel/commandapi/CustomCommandExecutor.java:61-85 | the result is the dispatch function of the current lists; the registry is not changed |
| `DispatchProperties.IsEmptyIffNoCallback` | CommandAPI/commandapi-core/src/main/java/dev/jorel/commandapi/CustomCommandExecutor.java:121-123 | a registry is empty exactly when no tag is registered in either list |
| `DispatchProperties.EmptyRegistryHasNoImplementation` | CommandAPI/commandapi-core/src/main/java/dev/jorel/commandapi/CustomCommandExecutor.java:102-105 | dispatching on an empty registry always fails with the "no implementations" syntax error |
| `DispatchProperties.MatchesConcat` | CommandAPI/commandapi-core/src/main/java/dev/jorel/commandapi/CustomCommandExecutor.java:129-131 | a tag occurs in a concatenation exactly when it occurs in one of the parts |
| `DispatchProperties.FirstOfTypeConcat` | CommandAPI/commandapi-core/src/main/java/dev/jorel/commandapi/CustomCommandExecutor.java:110 | in a concatenation, the first part's callback wins; otherwise the second part's is found, shifted by the first part's length |
| `DispatchProperties.MergeEmptyAndNative` | CommandAPI/commandapi-core/src/main/java/dev/jorel/commandapi/CustomCommandExecutor.java:133-140 | the merge is empty exactly when both inputs are; it forces NATIVE exactly when either input does |
| `DispatchProperties.MergeKeepsFirstRegistration` | CommandAPI/commandapi-core/src/main/java/dev/jorel/commandapi/CustomCommandExecutor.java:133-140 | for a tag the receiver already has, the merged lists still find the receiver's callback first |
| `DispatchProperties.MergeEmptyIdentity` | CommandAPI/commandapi-core/src/main/java/dev/jorel/commandapi/CustomCommandExecutor.java:133-140 | merging with an empty registry on either side gives back the other registry |
| `DispatchProperties.SelectTypeFollowsPrecedence` | CommandAPI/commandapi-core/src/main/java/dev/jorel/commandapi/CustomCommandExecutor.java:90-101 | the if/else-if chain picks the same tag as walking the table PLAYER, ENTITY, CONSOLE, BLOCK, PROXY, ALL |
| `DispatchProperties.DispatchBySender` | CommandAPI/commandapi-core/src/main/java/dev/jorel/commandapi/CustomCommandExecutor.java:90-101 | without NATIVE, the highest-precedence tag that the sender passes and the chosen list holds decides; the first callback with that tag runs |
| `DispatchProperties.PlayerBeatsEntity` | CommandAPI/commandapi-core/src/main/java/dev/jorel/commandapi/CustomCommandExecutor.java:90-93 | a player sender with both PLAYER and ENTITY callbacks gets the first PLAYER callback |
| `DispatchProperties.DispatchNativeOverride` | CommandAPI/commandapi-core/src/main/java/dev/jorel/commandapi/CustomCommandExecutor.java:88-89 | a NATIVE callback in the chosen list runs, whatever the sender and whatever else is registered |
| `DispatchProperties.NativeOnlyInOtherListYieldsZero` | CommandAPI/commandapi-core/src/main/java/dev/jorel/commandapi/CustomCommandExecutor.java:64-111 | NATIVE only in the list that is not searched makes dispatch return 0 |
| `DispatchProperties.DispatchNoImplementation` | CommandAPI/commandapi-core/src/main/java/dev/jorel/commandapi/CustomCommandExecutor.java:102-105 | when no branch applies, dispatch fails with "This command has no implementations for " plus the lower-cased class name, not with 0 |
| `DispatchProperties.DispatchOutcomeOrigin` | CommandAPI/commandapi-core/src/main/java/dev/jorel/commandapi/CustomCommandExecutor.java:66-83 | a syntax error is either the "no implementations" one or exactly the failure a callback threw; a value is 0 or exactly what a callback returned; an uncaught `Error` is one a callback threw |
| `DispatchProperties.ResultingShadowsNormal` | CommandAPI/commandapi-core/src/main/java/dev/jorel/commandapi/CustomCommandExecutor.java:64-84 | with a non-empty resulting list, changing the normal list (keeping its NATIVE-ness) never changes the result |
| `DispatchProperties.NormalIsNoFallback` | CommandAPI/commandapi-core/src/main/java/dev/jorel/commandapi/CustomCommandExecutor.java:64-84 | with a non-empty resulting list that has nothing for the sender, dispatch fails even if the normal list has an ALL callback |
| `DispatchProperties.PlayerAndAllScenario` | CommandAPI/commandapi-core/src/main/java/dev/jorel/commandapi/CustomCommandExecutor.java:90-101 | with resulting PLAYER (returns 5) and ALL (returns 9) callbacks, a player gets 5 and the console gets 9 |
| `DispatchProperties.WrappedFailureScenario` | CommandAPI/commandapi-core/src/main/java/dev/jorel/commandapi/CustomCommandExecutor.java:76-79 | a callback's wrapped syntax failure "bad arg" reaches the caller with that exact message |
| `DispatchProperties.ErrorPropagatesScenario` | CommandAPI/commandapi-core/src/main/java/dev/jorel/commandapi/CustomCommandExecutor.java:70-72 | an `Error` such as `StackOverflowError` thrown by the selected callback is not caught: it reaches the caller instead of becoming 0 |
| `Text.Lower` | CommandAPI/commandapi-core/src/main/java/dev/jorel/commandapi/wrappers/ScoreboardSlot.java:141 | same length; every upper-case ASCII letter becomes lower-case and every other character is kept |
| `ScoreboardSlots.FromInt` | CommandAPI/commandapi-core/src/main/java/dev/jorel/commandapi/wrappers/ScoreboardSlot.java:38-67 | 0 gives PLAYER_LIST, 2 gives BELOW_NAME and every other number gives SIDEBAR; a team colour exactly for 3..18, in order BLACK to WHITE, always on the sidebar |
| `ScoreboardSlots.DisplaySlotOf` | CommandAPI/commandapi-core/src/main/java/dev/jorel/commandapi/wrappers/ScoreboardSlot.java:40-45 | never an other display slot; PLAYER_LIST exactly for 0 and BELOW_NAME exactly for 2, so every other number gives SIDEBAR |
| `ScoreboardSlots.TeamColorOf` | CommandAPI/commandapi-core/src/main/java/dev/jorel/commandapi/wrappers/ScoreboardSlot.java:48-66 | the colour switch, one case per number 3..18 and absent otherwise; `FromInt` states it as the table BLACK to WHITE |
| `ScoreboardSlots.Of` | CommandAPI/commandapi-core/src/main/java/dev/jorel/commandapi/wrappers/ScoreboardSlot.java:74-81 | PLAYER_LIST, SIDEBAR and BELOW_NAME come back as themselves with no team colour; any other display slot gives slot 1 |
| `ScoreboardSlots.OfTeamColor` | CommandAPI/commandapi-core/src/main/java/dev/jorel/commandapi/wrappers/ScoreboardSlot.java:88-108 | each of the 16 colours comes back as the team colour on the sidebar; a formatting code gives slot 1, the sidebar with no colour |
| `ScoreboardSlots.HasTeamColor` | CommandAPI/commandapi-core/src/main/java/dev/jorel/commandapi/wrappers/ScoreboardSlot.java:130-132 | a slot has a team colour exactly when its rendering starts with "sidebar.team." |
| `ScoreboardSlots.ToString` | CommandAPI/commandapi-core/src/main/java/dev/jorel/commandapi/wrappers/ScoreboardSlot.java:138-150 | a team slot renders as "sidebar.team." followed by lower-case text; otherwise "list" exactly for PLAYER_LIST, "belowName" exactly for BELOW_NAME, and "sidebar" for SIDEBAR and any other display slot |
| `ScoreboardSlots.HasTeamColorRange` | CommandAPI/commandapi-core/src/main/java/dev/jorel/commandapi/wrappers/ScoreboardSlot.java:130-132 | a decoded slot has a team colour exactly for 3..18, and then its display slot is SIDEBAR |
| `ScoreboardSlots.EncodeFromInt` | CommandAPI/commandapi-core/src/main/java/dev/jorel/commandapi/wrappers/ScoreboardSlot.java:74-108 | decoding any number in 0..18 and encoding it again with the switches of `of`/`ofTeamColor` gives the number back |
| `ScoreboardSlots.FromIntRebuilt` | CommandAPI/commandapi-core/src/main/java/dev/jorel/commandapi/wrappers/ScoreboardSlot.java:38-108 | every decoded slot equals `ofTeamColor` of its colour, or `of` of its display slot when it has no colour |
| `ScoreboardSlots.FromIntInjective` | CommandAPI/commandapi-core/src/main/java/dev/jorel/commandapi/wrappers/ScoreboardSlot.java:38-67 | distinct numbers in 0..18 decode to distinct slots |
| `ScoreboardSlots.FromIntOutOfRange` | CommandAPI/commandapi-core/src/main/java/dev/jorel/commandapi/wrappers/ScoreboardSlot.java:38-67 | every number outside 0..18 decodes to the same slot as 1 |
| `ScoreboardSlots.ToStringOfInt` | CommandAPI/commandapi-core/src/main/java/dev/jorel/commandapi/wrappers/ScoreboardSlot.java:138-150 | the rendering of each number: "list", "belowName", "sidebar.team." plus the lower-cased colour name, or "sidebar" for 1 and for everything outside 0..18 |
| `ScoreboardSlots.TeamColorRendering` | CommandAPI/commandapi-core/src/main/java/dev/jorel/commandapi/wrappers/ScoreboardSlot.java:140-141 | the DARK_BLUE team sidebar renders as "sidebar.team.dark_blue" |
| `ScoreboardSlots.ToStringInjective` | CommandAPI/commandapi-core/src/main/java/dev/jorel/commandapi/wrappers/ScoreboardSlot.java:138-150 | distinct numbers in 0..18 render as distinct strings |

## Left out

- Logging: `printStackTrace` on a swallowed exception is not modelled. Only the value 0 is.
- Class names: `getClass().getSimpleName()` is the sender's `simpleName` field. The model does not derive it from a class.
- Text.Lower: Java's `toLowerCase` is locale- and Unicode-aware. The model only lowers ASCII letters, which matches Java only on ASCII text in a root or English default locale. Java also lowers non-ASCII capitals such as `Ä` in every locale, and a class's simple name may contain them; the model keeps them. In a Turkish default locale Java lowers `I` to a dotless `ı`. So `toString` of the LIGHT_PURPLE and WHITE team slots, and a "no implementations" message for a class name containing `I`, differ from the model there.
- Callback bodies (`executeWith` of the normal and resulting executors) are not part of this model. Each callback is an arbitrary function from sender and arguments to an outcome.
- Aliasing: `setNormalExecutors` and `setResultingExecutors` store the caller's list object, and the getters hand out the live lists. Later changes through those references are shared with the registry. The model stores sequence values, so it does not capture that sharing.
- Concurrency: the source has no synchronisation, and the model is sequential.
- Integer width: the slot number is a Java `int`. The model accepts any integer. The decoding does no arithmetic, so only the domain is larger.
- Null arguments: `of(null)` and `ofTeamColor(null)` throw in Java. The model's display slots and colours are never null.
- Null callbacks and lists: the model's callbacks and lists are never null, so it does not cover what Java does with them. After `addNormalExecutor(null)` or `setNormalExecutors(null)`, `execute` throws a `NullPointerException` inside the `try` block, and the catch turns it into 0. After `setResultingExecutors(null)`, the emptiness test at line 64 throws before the `try`, so that exception reaches the caller. `isEmpty` and `isForceNative` may also throw on a null list, when their short-circuiting `&&` or `||` reaches it.
