/**
 * `ScoreboardSlot`: a scoreboard display slot together with an optional team
 * colour (for the team-coloured sidebars), decoded from Minecraft's internal
 * slot number, built from a display slot or a colour, and rendered in
 * Minecraft's command syntax.
 */
module ScoreboardSlots {

  import opened Wrappers
  import opened Text

  /**
   * Bukkit's `DisplaySlot`. The three slots the internal number can name, and
   * `OtherDisplaySlot` for any further constant the host's enum may declare.
   */
  datatype DisplaySlot = PlayerList | Sidebar | BelowName | OtherDisplaySlot(name: string)

  /** Bukkit's `ChatColor`: sixteen colours followed by six formatting codes. */
  datatype ChatColor =
    | Black | DarkBlue | DarkGreen | DarkAqua | DarkRed | DarkPurple | Gold | Gray
    | DarkGray | Blue | Green | Aqua | Red | LightPurple | Yellow | White
    | Magic | Bold | Strikethrough | Underline | Italic | Reset

  /** The sixteen colours a team sidebar can have, in slot order (slots 3 to 18). */
  const TeamColors: seq<ChatColor> :=
    [Black, DarkBlue, DarkGreen, DarkAqua, DarkRed, DarkPurple, Gold, Gray,
     DarkGray, Blue, Green, Aqua, Red, LightPurple, Yellow, White]

  /** A colour proper, as opposed to a formatting code. */
  predicate IsTeamColor(c: ChatColor)
  {
    !(c.Magic? || c.Bold? || c.Strikethrough? || c.Underline? || c.Italic? || c.Reset?)
  }

  /** `ChatColor.name()`: the Java constant's name. */
  function Name(c: ChatColor): (n: string)
    ensures |n| > 0 && NoLowerCase(n)
  {
    match c
    case Black => "BLACK"
    case DarkBlue => "DARK_BLUE"
    case DarkGreen => "DARK_GREEN"
    case DarkAqua => "DARK_AQUA"
    case DarkRed => "DARK_RED"
    case DarkPurple => "DARK_PURPLE"
    case Gold => "GOLD"
    case Gray => "GRAY"
    case DarkGray => "DARK_GRAY"
    case Blue => "BLUE"
    case Green => "GREEN"
    case Aqua => "AQUA"
    case Red => "RED"
    case LightPurple => "LIGHT_PURPLE"
    case Yellow => "YELLOW"
    case White => "WHITE"
    case Magic => "MAGIC"
    case Bold => "BOLD"
    case Strikethrough => "STRIKETHROUGH"
    case Underline => "UNDERLINE"
    case Italic => "ITALIC"
    case Reset => "RESET"
  }

  /** A scoreboard slot: its display slot and, for a team sidebar, the team colour (`null` is None). */
  datatype ScoreboardSlot = ScoreboardSlot(displaySlot: DisplaySlot, teamColor: Option<ChatColor>)

  /** The first `switch` of the int constructor. */
  function DisplaySlotOf(i: int): (d: DisplaySlot)
    ensures !d.OtherDisplaySlot?
    ensures d == PlayerList <==> i == 0
    ensures d == BelowName <==> i == 2
  {
    match i
    case 0 => PlayerList
    case 1 => Sidebar
    case 2 => BelowName
    case _ => Sidebar
  }

  /** The second `switch` of the int constructor. */
  function TeamColorOf(i: int): Option<ChatColor>
  {
    match i
    case 3 => Some(Black)
    case 4 => Some(DarkBlue)
    case 5 => Some(DarkGreen)
    case 6 => Some(DarkAqua)
    case 7 => Some(DarkRed)
    case 8 => Some(DarkPurple)
    case 9 => Some(Gold)
    case 10 => Some(Gray)
    case 11 => Some(DarkGray)
    case 12 => Some(Blue)
    case 13 => Some(Green)
    case 14 => Some(Aqua)
    case 15 => Some(Red)
    case 16 => Some(LightPurple)
    case 17 => Some(Yellow)
    case 18 => Some(White)
    case _ => None
  }

  /**
   * `new ScoreboardSlot(i)`: decode Minecraft's internal slot number. It is
   * total: every number outside 0..18 decodes like 1, the plain sidebar.
   */
  function FromInt(i: int): (s: ScoreboardSlot)
    ensures s.teamColor.Some? <==> 3 <= i <= 18
    ensures 3 <= i <= 18 ==> s.teamColor == Some(TeamColors[i - 3]) && s.displaySlot == Sidebar
    ensures i == 0 ==> s.displaySlot == PlayerList
    ensures i == 2 ==> s.displaySlot == BelowName
    ensures i != 0 && i != 2 ==> s.displaySlot == Sidebar
    ensures s.teamColor.Some? ==> IsTeamColor(s.teamColor.value)
  {
    ScoreboardSlot(DisplaySlotOf(i), TeamColorOf(i))
  }


  /** The slot number the `switch` of `of` picks for a display slot. */
  function SlotNumber(slot: DisplaySlot): int
  {
    match slot
    case PlayerList => 0
    case Sidebar => 1
    case BelowName => 2
    case OtherDisplaySlot(_) => 1
  }

  /** The slot number the `switch` of `ofTeamColor` picks for a colour. */
  function TeamSlotNumber(c: ChatColor): int
  {
    match c
    case Black => 3
    case DarkBlue => 4
    case DarkGreen => 5
    case DarkAqua => 6
    case DarkRed => 7
    case DarkPurple => 8
    case Gold => 9
    case Gray => 10
    case DarkGray => 11
    case Blue => 12
    case Green => 13
    case Aqua => 14
    case Red => 15
    case LightPurple => 16
    case Yellow => 17
    case White => 18
    case _ => 1
  }

  /** `of(DisplaySlot)`: the three named slots come back as themselves; anything else is the sidebar. */
  function Of(slot: DisplaySlot): (s: ScoreboardSlot)
    ensures s.teamColor == None
    ensures !slot.OtherDisplaySlot? ==> s.displaySlot == slot
    ensures slot.OtherDisplaySlot? ==> s == FromInt(1)
  {
    FromInt(SlotNumber(slot))
  }

  /** `ofTeamColor(ChatColor)`: a colour comes back as the team colour; a formatting code gives slot 1. */
  function OfTeamColor(c: ChatColor): (s: ScoreboardSlot)
    ensures IsTeamColor(c) ==> s.teamColor == Some(c) && s.displaySlot == Sidebar
    ensures !IsTeamColor(c) ==> s == FromInt(1) && s.displaySlot == Sidebar && s.teamColor == None
  {
    FromInt(TeamSlotNumber(c))
  }

  /**
   * `toString`: Minecraft's name for the slot. A team sidebar is named by
   * its lower-cased colour; otherwise the display slot names it, and
   * "sidebar" stands for both the sidebar and any other display slot.
   */
  function ToString(s: ScoreboardSlot): (r: string)
    ensures s.teamColor.Some? ==>
      |r| > 13 && r[..13] == "sidebar.team." && forall k :: 0 <= k < |r| ==> !IsUpper(r[k])
    ensures s.teamColor.None? ==>
      (r == "list" <==> s.displaySlot == PlayerList) &&
      (r == "belowName" <==> s.displaySlot == BelowName) &&
      (r == "sidebar" <==> s.displaySlot == Sidebar || s.displaySlot.OtherDisplaySlot?)
  {
    match s.teamColor
    case Some(c) => "sidebar.team." + Lower(Name(c))
    case None =>
      match s.displaySlot
      case PlayerList => "list"
      case Sidebar => "sidebar"
      case BelowName => "belowName"
      case OtherDisplaySlot(_) => "sidebar"
  }

  /** `hasTeamColor`: exactly the slots whose rendering names a team. */
  function HasTeamColor(s: ScoreboardSlot): (r: bool)
    ensures r <==> |ToString(s)| > 13 && ToString(s)[..13] == "sidebar.team."
  {
    s.teamColor.Some?
  }

  // ---------------------------------------------------------------------------
  // Round trips between slot numbers and slots
  // ---------------------------------------------------------------------------

  /** The number `of`/`ofTeamColor` would give back for a slot: its team colour's, else its display slot's. */
  function Encode(s: ScoreboardSlot): int
  {
    match s.teamColor
    case Some(c) => TeamSlotNumber(c)
    case None => SlotNumber(s.displaySlot)
  }

  /** Decoding then re-encoding every defined slot number gives the number back. */
  lemma EncodeFromInt(i: int)
    requires 0 <= i <= 18
    ensures Encode(FromInt(i)) == i
  {
  }

  /**
   * Every decoded slot is rebuilt by the factory its accessors point to:
   * `ofTeamColor(getTeamColor())` when it has a team colour, `of(getDisplaySlot())` otherwise.
   */
  lemma FromIntRebuilt(i: int)
    ensures HasTeamColor(FromInt(i)) ==> OfTeamColor(FromInt(i).teamColor.value) == FromInt(i)
    ensures !HasTeamColor(FromInt(i)) ==> Of(FromInt(i).displaySlot) == FromInt(i)
  {
  }

  /** Decoding is injective on 0..18. */
  lemma FromIntInjective(i: int, j: int)
    requires 0 <= i <= 18 && 0 <= j <= 18
    requires FromInt(i) == FromInt(j)
    ensures i == j
  {
  }

  /** A decoded slot has a team colour exactly for the numbers 3 to 18, and then shows on the sidebar. */
  lemma HasTeamColorRange(i: int)
    ensures HasTeamColor(FromInt(i)) <==> 3 <= i <= 18
    ensures HasTeamColor(FromInt(i)) ==> FromInt(i).displaySlot == Sidebar
  {
  }

  /** Every number outside 0..18 decodes to the same slot as 1, the plain sidebar. */
  lemma FromIntOutOfRange(i: int)
    requires i < 0 || i > 18
    ensures FromInt(i) == FromInt(1)
  {
  }

  // ---------------------------------------------------------------------------
  // Rendering
  // ---------------------------------------------------------------------------

  /**
   * Proof helper: decodes a colour's constant name back to the colour, which
   * shows that distinct colours have distinct names.
   */
  function ColorNamed(n: string): (r: Option<ChatColor>)
  {
    if n == "BLACK" then Some(Black)
    else if n == "DARK_BLUE" then Some(DarkBlue)
    else if n == "DARK_GREEN" then Some(DarkGreen)
    else if n == "DARK_AQUA" then Some(DarkAqua)
    else if n == "DARK_RED" then Some(DarkRed)
    else if n == "DARK_PURPLE" then Some(DarkPurple)
    else if n == "GOLD" then Some(Gold)
    else if n == "GRAY" then Some(Gray)
    else if n == "DARK_GRAY" then Some(DarkGray)
    else if n == "BLUE" then Some(Blue)
    else if n == "GREEN" then Some(Green)
    else if n == "AQUA" then Some(Aqua)
    else if n == "RED" then Some(Red)
    else if n == "LIGHT_PURPLE" then Some(LightPurple)
    else if n == "YELLOW" then Some(Yellow)
    else if n == "WHITE" then Some(White)
    else if n == "MAGIC" then Some(Magic)
    else if n == "BOLD" then Some(Bold)
    else if n == "STRIKETHROUGH" then Some(Strikethrough)
    else if n == "UNDERLINE" then Some(Underline)
    else if n == "ITALIC" then Some(Italic)
    else if n == "RESET" then Some(Reset)
    else None
  }

  /** Every colour's name decodes back to the colour, so distinct colours have distinct names. */
  lemma NameRoundTrip(c: ChatColor)
    ensures ColorNamed(Name(c)) == Some(c)
  {
  }

  /** The rendering of a decoded slot number, case by case. */
  lemma ToStringOfInt(i: int)
    ensures i == 0 ==> ToString(FromInt(i)) == "list"
    ensures i == 2 ==> ToString(FromInt(i)) == "belowName"
    ensures 3 <= i <= 18 ==> ToString(FromInt(i)) == "sidebar.team." + Lower(Name(TeamColors[i - 3]))
    ensures i == 1 || i < 0 || i > 18 ==> ToString(FromInt(i)) == "sidebar"
  {
  }

  /** A team colour renders as `sidebar.team.` and its lower-cased name. */
  lemma TeamColorRendering()
    ensures ToString(OfTeamColor(DarkBlue)) == "sidebar.team.dark_blue"
  {
    assert OfTeamColor(DarkBlue) == ScoreboardSlot(Sidebar, Some(DarkBlue));
    LowerLiteral(Name(DarkBlue), "dark_blue");
  }

  /** Lower-casing checked character by character. */
  lemma LowerLiteral(s: string, t: string)
    requires |s| == |t|
    requires forall k :: 0 <= k < |s| ==> LowerChar(s[k]) == t[k]
    ensures Lower(s) == t
  {
  }

  /** Distinct slot numbers in 0..18 render as distinct strings. */
  lemma ToStringInjective(i: int, j: int)
    requires 0 <= i <= 18 && 0 <= j <= 18
    requires ToString(FromInt(i)) == ToString(FromInt(j))
    ensures i == j
  {
    var s, t := FromInt(i), FromInt(j);
    if s.teamColor.Some? && t.teamColor.Some? {
      var a, b := Lower(Name(s.teamColor.value)), Lower(Name(t.teamColor.value));
      assert ("sidebar.team." + a)[13..] == a;
      assert ("sidebar.team." + b)[13..] == b;
      LowerInjective(Name(s.teamColor.value), Name(t.teamColor.value));
      NameRoundTrip(s.teamColor.value);
      NameRoundTrip(t.teamColor.value);
      FromIntInjective(i, j);
    } else if s.teamColor.None? && t.teamColor.None? {
      FromIntInjective(i, j);
    }
    // otherwise one string starts with "sidebar.team." and the other is shorter
  }
}
