/** End-to-end command sequences on a fresh database, each proved to leave
    the stated table contents. Guild 1, reporter 10. */
module Scenarios {
  import opened Schema
  import opened Rules
  import opened Log
  import opened Bot

  const Png: Attachment := Attachment("photo.png", "https://cdn.example/photo.png")

  lemma PngAccepted()
    ensures HasImageExtension(Png.filename)
  {
    var ext := Lower(".png");
    assert ext[0] == '.' && ext[1] == 'p' && ext[2] == 'n' && ext[3] == 'g';
    assert ext == ".png";
    ImageExtensionAfterAnyStem("photo", ".png", 0);
    assert "photo" + ".png" == Png.filename;
  }

  /** A fresh guild reports one attack win: territories 1, wins 1, one history
      row tagged att_win with territories 1. */
  method FreshAttackWin() returns (r: EventOutcome, row: Stats, log: seq<HistoryEntry>)
    ensures r == Recorded(1) && row == Stats(1, 0, 1)
    ensures log == [HistoryEntry(1, 1, 10, AttWin, "2025-01-01 12:00:00", Png.url, 1, None)]
  {
    var store := new GameStore();
    PngAccepted();
    r := store.ProcessWin(1, 10, {}, Png, None, "2025-01-01 12:00:00", true);
    assert WinTerritories(0, true) == 1;
    row := store.stats[1];
    log := store.history;
  }

  /** Twenty attack wins in a row from a fresh guild: the count stops at 18
      while the wins counter reaches 20, and the log has twenty rows. */
  method TwentyAttackWins() returns (row: Stats, logged: nat)
    ensures row == Stats(20, 0, 18) && logged == 20
  {
    var store := new GameStore();
    PngAccepted();
    var i := 0;
    while i < 20
      invariant 0 <= i <= 20
      invariant store.Valid() && store.settings == map[]
      invariant StatsOr(store.stats, 1) == Stats(i, 0, AttackWinsFrom(0, i))
      invariant |store.history| == i
    {
      var _ := store.ProcessWin(1, 10, {}, Png, None, "2025-01-01 12:00:00", true);
      i := i + 1;
    }
    RepeatedAttackWins(0, 20);
    row := StatsOr(store.stats, 1);
    logged := |store.history|;
  }

  /** A defense loss at 0 territories keeps 0 and counts the loss. */
  method DefenseLossAtZero() returns (r: EventOutcome, row: Stats)
    ensures r == Recorded(0) && row == Stats(0, 1, 0)
  {
    var store := new GameStore();
    PngAccepted();
    r := store.ProcessLoose(1, 10, {}, Png, None, "2025-01-01 12:00:00", false);
    assert LooseTerritories(0, false) == 0;
    row := store.stats[1];
  }

  /** /current 5 after two wins and a loss: territories 5 whatever they were,
      the counters back at 0, and a manual_update row with no screenshot. */
  method ManualCorrection() returns (row: Stats, last: HistoryEntry)
    ensures row == Stats(0, 0, 5)
    ensures last == HistoryEntry(4, 1, 10, ManualUpdate, "2025-01-02 09:00:00", "", 5, Some("manual correction"))
  {
    var store := new GameStore();
    PngAccepted();
    var r1 := store.ProcessWin(1, 10, {}, Png, None, "2025-01-01 12:00:00", true);
    var r2 := store.ProcessWin(1, 10, {}, Png, None, "2025-01-01 12:05:00", false);
    var r3 := store.ProcessLoose(1, 10, {}, Png, None, "2025-01-01 12:10:00", false);
    var r4 := store.Current(1, 10, {}, 5, Some("manual correction"), "2025-01-02 09:00:00");
    row := store.stats[1];
    last := store.history[|store.history| - 1];
  }

  /** With role 7 configured, a caller without it is refused and nothing is
      written; a later /addchannel replaces the settings row and drops the
      role, after which the same caller's report is recorded. */
  method ChannelDropsRoleGate() returns (refused: EventOutcome, accepted: EventOutcome, logged: nat)
    ensures refused == NotPermitted && accepted == Recorded(1) && logged == 1
  {
    var store := new GameStore();
    PngAccepted();
    var set1 := store.AddRole(1, true, 7);
    refused := store.ProcessWin(1, 10, {3}, Png, None, "2025-01-01 12:00:00", true);
    var set2 := store.AddChannel(1, true, 99);
    accepted := store.ProcessWin(1, 10, {3}, Png, None, "2025-01-01 12:05:00", true);
    logged := |store.history|;
  }

  /** A report with a GIF is refused and nothing is written; a non-administrator
      cannot configure the role. */
  method Rejections() returns (r: EventOutcome, a: AdminOutcome, logged: nat, configured: bool)
    ensures r == InvalidScreenshot && a == NotAdministrator && logged == 0 && !configured
  {
    var store := new GameStore();
    ImageExtensionRejects();
    r := store.ProcessWin(1, 10, {}, Attachment("photo.gif", "u"), None, "2025-01-01 12:00:00", true);
    a := store.AddRole(1, false, 7);
    logged := |store.history|;
    configured := 1 in store.settings;
  }
}
