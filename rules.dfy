/** The pure decisions inside the command handlers: the clamped territory
    transitions, the screenshot file-name test, the role gate and the
    win/loss percentages of the statistics summary. */
module Rules {
  import opened Schema

  function Min(a: int, b: int): int { if a <= b then a else b }

  function Max(a: int, b: int): int { if a >= b then a else b }

  // ---------------------------------------------------------------------------
  // Territory transitions

  /** New territory count after a win: an attack win takes one more territory
      but never goes above 18, a defense win keeps the count. */
  function WinTerritories(t: int, attack: bool): (r: int)
    ensures attack ==> r <= MaxTerritories && r <= t + 1 && (r == t + 1 || r == MaxTerritories)
    ensures !attack ==> r == t
  {
    if attack then Min(t + 1, MaxTerritories) else t
  }

  /** New territory count after a loss: a defense loss gives up one territory
      but never goes below 0, an attack loss keeps the count. */
  function LooseTerritories(t: int, attack: bool): (r: int)
    ensures !attack ==> r >= 0 && r >= t - 1 && (r == t - 1 || r == 0)
    ensures attack ==> r == t
  {
    if !attack then Max(t - 1, 0) else t
  }

  /** The territory count after a logged win or loss event. */
  function EventTerritories(action: Action, t: int): (r: int)
    requires action.IsWin() || action.IsLoss()
    ensures action.AttWin? ==> r == Min(t + 1, MaxTerritories)
    ensures action.DefWin? || action.AttLoose? ==> r == t
    ensures action.DefLoose? ==> r == Max(t - 1, 0)
  {
    match action
    case AttWin => WinTerritories(t, true)
    case DefWin => WinTerritories(t, false)
    case AttLoose => LooseTerritories(t, true)
    case DefLoose => LooseTerritories(t, false)
  }

  /** Win and loss events keep a count that is in range. */
  lemma EventsKeepRange(t: int, attack: bool)
    requires 0 <= t <= MaxTerritories
    ensures 0 <= WinTerritories(t, attack) <= MaxTerritories
    ensures 0 <= LooseTerritories(t, attack) <= MaxTerritories
  {
  }

  /** The count after `n` attack wins in a row, starting from `t`. */
  function AttackWinsFrom(t: int, n: nat): int
  {
    if n == 0 then t else WinTerritories(AttackWinsFrom(t, n - 1), true)
  }

  /** The count after `n` defense losses in a row, starting from `t`. */
  function DefenseLossesFrom(t: int, n: nat): int
  {
    if n == 0 then t else LooseTerritories(DefenseLossesFrom(t, n - 1), false)
  }

  /** Repeated attack wins saturate at 18, whatever the starting count. */
  lemma {:induction false} RepeatedAttackWins(t: int, n: nat)
    requires n > 0
    ensures AttackWinsFrom(t, n) == Min(t + n, MaxTerritories)
  {
    if n > 1 {
      RepeatedAttackWins(t, n - 1);
    }
  }

  /** Repeated defense losses saturate at 0, whatever the starting count. */
  lemma {:induction false} RepeatedDefenseLosses(t: int, n: nat)
    requires n > 0
    ensures DefenseLossesFrom(t, n) == Max(t - n, 0)
  {
    if n > 1 {
      RepeatedDefenseLosses(t, n - 1);
    }
  }

  // ---------------------------------------------------------------------------
  // Screenshot file-name test

  /** The accepted suffixes, in the order the handlers list them. */
  const ImageExtensions: seq<string> := [".png", ".jpg", ".jpeg"]

  /** Lower-casing of one character (ASCII letters only). */
  function LowerChar(c: char): char
  {
    if 'A' <= c <= 'Z' then (c as int + 32) as char else c
  }

  /** Lower-casing of a name: no upper-case ASCII letter is left, each one
      becomes its lower-case partner, and every other character stays. */
  function Lower(s: string): (r: string)
    ensures |r| == |s|
    ensures forall i :: 0 <= i < |r| ==> !('A' <= r[i] <= 'Z')
    ensures forall i :: 0 <= i < |s| && 'A' <= s[i] <= 'Z' ==> r[i] as int == s[i] as int + 32
    ensures forall i :: 0 <= i < |s| && !('A' <= s[i] <= 'Z') ==> r[i] == s[i]
  {
    seq(|s|, i requires 0 <= i < |s| => LowerChar(s[i]))
  }

  predicate EndsWith(s: string, suffix: string)
  {
    |suffix| <= |s| && s[|s| - |suffix|..] == suffix
  }

  /** The attachment check of the win/loss handlers: the lower-cased file name
      ends in one of the image extensions. */
  function HasImageExtension(filename: string): (r: bool)
    ensures r <==> exists k :: 0 <= k < |ImageExtensions| && EndsWith(Lower(filename), ImageExtensions[k])
  {
    var name := Lower(filename);
    assert ImageExtensions[0] == ".png" && ImageExtensions[1] == ".jpg" && ImageExtensions[2] == ".jpeg";
    EndsWith(name, ".png") || EndsWith(name, ".jpg") || EndsWith(name, ".jpeg")
  }

  lemma LowerConcat(a: string, b: string)
    ensures Lower(a + b) == Lower(a) + Lower(b)
  {
    assert forall i :: 0 <= i < |a + b| ==> Lower(a + b)[i] == (Lower(a) + Lower(b))[i];
  }

  /** Any stem followed by an accepted extension, in any letter case, passes. */
  lemma {:induction false} ImageExtensionAfterAnyStem(stem: string, ext: string, k: nat)
    requires k < |ImageExtensions| && Lower(ext) == ImageExtensions[k]
    ensures HasImageExtension(stem + ext)
  {
    LowerConcat(stem, ext);
    var name := Lower(stem + ext);
    assert name[|name| - |ext|..] == Lower(ext);
    assert EndsWith(name, ImageExtensions[k]);
  }

  /** The test does not depend on letter case. */
  lemma ImageExtensionIgnoresCase(filename: string)
    ensures HasImageExtension(Lower(filename)) == HasImageExtension(filename)
  {
    assert Lower(Lower(filename)) == Lower(filename);
  }

  /** Every accepted name has at least four characters and ends in 'g' or 'G'. */
  lemma ImageNameShape(filename: string)
    requires HasImageExtension(filename)
    ensures |filename| >= 4 && LowerChar(filename[|filename| - 1]) == 'g'
  {
    var name := Lower(filename);
    var k :| 0 <= k < |ImageExtensions| && EndsWith(name, ImageExtensions[k]);
    var ext := ImageExtensions[k];
    assert name[|name| - 1] == ext[|ext| - 1];
  }

  /** Names the test turns away: another extension, an extension without the
      dot, an image extension that is not last, and the empty name. */
  lemma ImageExtensionRejects()
    ensures !HasImageExtension("photo.gif")
    ensures !HasImageExtension("png")
    ensures !HasImageExtension("shot.png.txt")
    ensures !HasImageExtension("")
  {
    if HasImageExtension("photo.gif") { ImageNameShape("photo.gif"); }
    if HasImageExtension("png") { ImageNameShape("png"); }
    if HasImageExtension("shot.png.txt") { ImageNameShape("shot.png.txt"); }
    if HasImageExtension("") { ImageNameShape(""); }
  }

  // ---------------------------------------------------------------------------
  // Role gate

  /** The role the guild's settings restrict the event commands to, if any:
      a missing row, a NULL column and the value 0 all mean "no restriction". */
  function GateRole(settings: map<int, Settings>, guild: int): (r: Option<int>)
    ensures r.Some? <==> guild in settings && settings[guild].allowedRoleId.Some? && settings[guild].allowedRoleId.value != 0
    ensures r.Some? ==> r.value == settings[guild].allowedRoleId.value
  {
    if guild !in settings then None
    else match settings[guild].allowedRoleId
      case None => None
      case Some(id) => if id == 0 then None else Some(id)
  }

  /** The permission check in front of the event commands and /current:
      allowed when no role is configured, otherwise exactly when the caller
      holds the configured role. */
  function Permitted(settings: map<int, Settings>, guild: int, roles: set<int>): (r: bool)
    ensures r <==> (guild !in settings
                    || settings[guild].allowedRoleId == None
                    || settings[guild].allowedRoleId == Some(0)
                    || settings[guild].allowedRoleId.value in roles)
  {
    match GateRole(settings, guild)
    case None => true
    case Some(role) => role in roles
  }

  /** Holding more roles never loses access. */
  lemma PermittedMonotone(settings: map<int, Settings>, guild: int, roles: set<int>, more: set<int>)
    requires roles <= more && Permitted(settings, guild, roles)
    ensures Permitted(settings, guild, more)
  {
  }

  // ---------------------------------------------------------------------------
  // Statistics summary

  /** Percentage of won games; 0 when no game was played. */
  function WinRate(wins: nat, losses: nat): (r: real)
    ensures 0.0 <= r <= 100.0
    ensures wins + losses == 0 ==> r == 0.0
    ensures wins + losses > 0 ==> r * (wins + losses) as real == wins as real * 100.0
  {
    if wins + losses > 0 then wins as real / (wins + losses) as real * 100.0 else 0.0
  }

  /** Percentage of lost games; 0 when no game was played. */
  function LossRate(wins: nat, losses: nat): (r: real)
    ensures 0.0 <= r <= 100.0
    ensures wins + losses == 0 ==> r == 0.0
    ensures wins + losses > 0 ==> r * (wins + losses) as real == losses as real * 100.0
  {
    if wins + losses > 0 then losses as real / (wins + losses) as real * 100.0 else 0.0
  }

  /** The two percentages add up to 100 once a game was played. */
  lemma RatesComplement(wins: nat, losses: nat)
    requires wins + losses > 0
    ensures WinRate(wins, losses) + LossRate(wins, losses) == 100.0
  {
    var total := (wins + losses) as real;
    var w, l := WinRate(wins, losses), LossRate(wins, losses);
    var sum := w * total + l * total;
    assert sum == wins as real * 100.0 + losses as real * 100.0;
    assert sum == total * 100.0;
    assert (w + l) * total == sum;
    assert (w + l - 100.0) * total == 0.0;
  }
}
