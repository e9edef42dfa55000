/** The bot's database and its command handlers.

    `GameStore` holds the three tables created at start-up; each slash command
    that writes to them is a method. What the chat platform supplies (the
    caller's id, the ids of the roles the caller holds, the administrator flag,
    the attachment, the note) and the clock reading are parameters. */
module Bot {
  import opened Schema
  import opened Rules
  import opened Log

  /** How an event command or /current ends. `NotPermitted` and
      `InvalidScreenshot` are the ephemeral refusals; `Recorded` carries the
      territory count the confirmation reports. */
  datatype EventOutcome = NotPermitted | InvalidScreenshot | Recorded(territories: int)

  /** How /addrole or /addchannel ends. */
  datatype AdminOutcome = NotAdministrator | Saved

  class GameStore {
    /** `stats`: one row per guild. */
    var stats: map<int, Stats>
    /** `bot_settings`: one row per guild. */
    var settings: map<int, Settings>
    /** `history`, in insertion order. */
    var history: seq<HistoryEntry>

    /** The stats table is what the log replays to, and history ids are the
        AUTOINCREMENT values 1, 2, 3, ... (no row is ever deleted). */
    ghost predicate Valid()
      reads this
    {
      && stats == Replay(history)
      && SequentialIds(history)
    }

    /** The tables as `init_db` creates them in a fresh database. */
    constructor ()
      ensures Valid()
      ensures stats == map[] && settings == map[] && history == []
    {
      stats := map[];
      settings := map[];
      history := [];
    }

    /** /att_win (attack) and /def_win (defense). After the role gate and the
        file-name test, the guild's row is created with defaults if missing,
        its wins go up by one, its territories follow the win transition, and
        one history row records the new count. */
    method ProcessWin(guild: int, user: int, roles: set<int>, screenshot: Attachment,
                      note: Option<string>, timestamp: string, attack: bool) returns (r: EventOutcome)
      requires Valid()
      modifies this`stats, this`history
      ensures Valid()
      ensures !Permitted(settings, guild, roles) ==>
                r == NotPermitted && stats == old(stats) && history == old(history)
      ensures Permitted(settings, guild, roles) && !HasImageExtension(screenshot.filename) ==>
                r == InvalidScreenshot && stats == old(stats) && history == old(history)
      ensures Permitted(settings, guild, roles) && HasImageExtension(screenshot.filename) ==>
                var before := StatsOr(old(stats), guild);
                var t := WinTerritories(before.territories, attack);
                && r == Recorded(t)
                && stats == old(stats)[guild := Stats(before.wins + 1, before.losses, t)]
                && history == old(history) + [HistoryEntry(|old(history)| + 1, guild, user,
                                                          if attack then AttWin else DefWin,
                                                          timestamp, screenshot.url, t, note)]
    {
      if !Permitted(settings, guild, roles) {
        return NotPermitted;
      }
      if !HasImageExtension(screenshot.filename) {
        return InvalidScreenshot;
      }
      var t := RecordEvent(guild, user, if attack then AttWin else DefWin, screenshot.url, note, timestamp);
      r := Recorded(t);
    }

    /** /att_loose (attack) and /def_loose (defense): as `ProcessWin`, with the
        losses counter and the loss transition. */
    method ProcessLoose(guild: int, user: int, roles: set<int>, screenshot: Attachment,
                        note: Option<string>, timestamp: string, attack: bool) returns (r: EventOutcome)
      requires Valid()
      modifies this`stats, this`history
      ensures Valid()
      ensures !Permitted(settings, guild, roles) ==>
                r == NotPermitted && stats == old(stats) && history == old(history)
      ensures Permitted(settings, guild, roles) && !HasImageExtension(screenshot.filename) ==>
                r == InvalidScreenshot && stats == old(stats) && history == old(history)
      ensures Permitted(settings, guild, roles) && HasImageExtension(screenshot.filename) ==>
                var before := StatsOr(old(stats), guild);
                var t := LooseTerritories(before.territories, attack);
                && r == Recorded(t)
                && stats == old(stats)[guild := Stats(before.wins, before.losses + 1, t)]
                && history == old(history) + [HistoryEntry(|old(history)| + 1, guild, user,
                                                          if attack then AttLoose else DefLoose,
                                                          timestamp, screenshot.url, t, note)]
    {
      if !Permitted(settings, guild, roles) {
        return NotPermitted;
      }
      if !HasImageExtension(screenshot.filename) {
        return InvalidScreenshot;
      }
      var t := RecordEvent(guild, user, if attack then AttLoose else DefLoose, screenshot.url, note, timestamp);
      r := Recorded(t);
    }

    /** The accepted path shared by the four event commands: `INSERT OR IGNORE`
        the guild's row, read its territories, `UPDATE` the counter of the
        event and the territories, then insert the history row. */
    method RecordEvent(guild: int, user: int, action: Action, url: string,
                       note: Option<string>, timestamp: string) returns (t: int)
      requires Valid()
      requires action.IsWin() || action.IsLoss()
      modifies this`stats, this`history
      ensures Valid()
      ensures var before := StatsOr(old(stats), guild);
              && t == EventTerritories(action, before.territories)
              && stats == old(stats)[guild := Stats(before.wins + (if action.IsWin() then 1 else 0),
                                                    before.losses + (if action.IsLoss() then 1 else 0), t)]
              && history == old(history) + [HistoryEntry(|old(history)| + 1, guild, user, action,
                                                        timestamp, url, t, note)]
    {
      ghost var before := StatsOr(stats, guild);
      if guild !in stats {
        stats := stats[guild := DefaultStats];
      }
      var row := stats[guild];
      assert row == before;
      t := EventTerritories(action, row.territories);
      var wins := row.wins + (if action.IsWin() then 1 else 0);
      var losses := row.losses + (if action.IsLoss() then 1 else 0);
      stats := stats[guild := Stats(wins, losses, t)];
      assert stats == old(stats)[guild := Stats(wins, losses, t)];
      var entry := HistoryEntry(|history| + 1, guild, user, action, timestamp, url, t, note);
      ApplyEvent(old(stats), entry);
      assert stats == Apply(old(stats), entry);
      ReplayAppend(history, entry);
      SequentialIdsAppend(history, entry);
      history := history + [entry];
      assert stats == Replay(history);
    }

    /** /current: sets the territory count to exactly the given value, without
        clamping. The row is replaced with only `territories` supplied, so the
        guild's wins and losses go back to 0. The history row has an empty
        screenshot URL. */
    method Current(guild: int, user: int, roles: set<int>, territories: int,
                   note: Option<string>, timestamp: string) returns (r: EventOutcome)
      requires Valid()
      modifies this`stats, this`history
      ensures Valid()
      ensures !Permitted(settings, guild, roles) ==>
                r == NotPermitted && stats == old(stats) && history == old(history)
      ensures Permitted(settings, guild, roles) ==>
                && r == Recorded(territories)
                && stats == old(stats)[guild := Stats(0, 0, territories)]
                && history == old(history) + [HistoryEntry(|old(history)| + 1, guild, user, ManualUpdate,
                                                          timestamp, "", territories, note)]
    {
      if !Permitted(settings, guild, roles) {
        return NotPermitted;
      }
      stats := stats[guild := Stats(0, 0, territories)];
      var entry := HistoryEntry(|history| + 1, guild, user, ManualUpdate, timestamp, "", territories, note);
      ApplyManual(old(stats), entry);
      assert stats == Apply(old(stats), entry);
      ReplayAppend(history, entry);
      SequentialIdsAppend(history, entry);
      history := history + [entry];
      assert stats == Replay(history);
      r := Recorded(territories);
    }

    /** /addrole: administrators only; the settings row is replaced with only
        the role given, so a configured stats channel is cleared. */
    method AddRole(guild: int, isAdministrator: bool, roleId: int) returns (r: AdminOutcome)
      requires Valid()
      modifies this`settings
      ensures Valid()
      ensures !isAdministrator ==> r == NotAdministrator && settings == old(settings)
      ensures isAdministrator ==> r == Saved && settings == old(settings)[guild := Settings(None, Some(roleId))]
    {
      if !isAdministrator {
        return NotAdministrator;
      }
      settings := settings[guild := Settings(None, Some(roleId))];
      r := Saved;
    }

    /** /addchannel: administrators only; the settings row is replaced with only
        the channel given, so a configured role gate is cleared. */
    method AddChannel(guild: int, isAdministrator: bool, channelId: int) returns (r: AdminOutcome)
      requires Valid()
      modifies this`settings
      ensures Valid()
      ensures !isAdministrator ==> r == NotAdministrator && settings == old(settings)
      ensures isAdministrator ==> r == Saved && settings == old(settings)[guild := Settings(Some(channelId), None)]
    {
      if !isAdministrator {
        return NotAdministrator;
      }
      settings := settings[guild := Settings(Some(channelId), None)];
      r := Saved;
    }

    /** The stats lookup of /rate: no row means "no statistics yet"; a row
        holds the territories of the guild's latest history entry and the
        wins and losses logged since its last manual update. */
    method Rate(guild: int) returns (r: Option<Stats>)
      requires Valid()
      ensures r.Some? <==> Latest(history, guild).Some?
      ensures r.Some? ==>
                && r.value.territories == Latest(history, guild).value.territories
                && r.value.wins == WinsSinceReset(history, guild)
                && r.value.losses == LossesSinceReset(history, guild)
    {
      ReplayAgreesWithLog(history, guild);
      if guild in stats {
        r := Some(stats[guild]);
      } else {
        r := None;
      }
    }
  }

  /** After /addrole with a non-zero role, exactly the holders of that role
      pass the gate in that guild. */
  lemma GateAfterAddRole(settings: map<int, Settings>, guild: int, roleId: int, roles: set<int>)
    requires roleId != 0
    ensures Permitted(settings[guild := Settings(None, Some(roleId))], guild, roles) <==> roleId in roles
  {
  }

  /** After /addchannel every caller passes the gate in that guild, whatever
      role was configured before. */
  lemma GateAfterAddChannel(settings: map<int, Settings>, guild: int, channelId: int, roles: set<int>)
    ensures Permitted(settings[guild := Settings(Some(channelId), None)], guild, roles)
  {
  }
}
