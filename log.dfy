/** What the append-only `history` table says about the `stats` table.

    Every handler that writes a stats row also appends one history row in the
    same transaction, and no other code touches either table. So the stats
    table is a function of the log: `Replay` folds the log from the first row,
    applying to the guild's row what the handler that wrote the entry did to
    it. The store keeps `stats == Replay(history)` as its invariant. */
module Log {
  import opened Schema

  /** The guild's stats row, or the row `INSERT OR IGNORE` would create. */
  function StatsOr(m: map<int, Stats>, guild: int): (s: Stats)
    ensures guild !in m ==> s == DefaultStats
  {
    if guild in m then m[guild] else DefaultStats
  }

  /** The effect of one logged command on the stats table. A manual update
      rewrites the whole row with only `territories` given (the other columns
      fall back to their default 0); a win or a loss bumps its counter on the
      existing or freshly created row and stores the logged territory count. */
  function Apply(m: map<int, Stats>, e: HistoryEntry): map<int, Stats>
  {
    var s := StatsOr(m, e.guildId);
    match e.action
    case ManualUpdate => m[e.guildId := Stats(0, 0, e.territories)]
    case AttWin => m[e.guildId := s.(wins := s.wins + 1, territories := e.territories)]
    case DefWin => m[e.guildId := s.(wins := s.wins + 1, territories := e.territories)]
    case AttLoose => m[e.guildId := s.(losses := s.losses + 1, territories := e.territories)]
    case DefLoose => m[e.guildId := s.(losses := s.losses + 1, territories := e.territories)]
  }

  /** The stats table that the log `h` produces from empty tables. */
  function Replay(h: seq<HistoryEntry>): map<int, Stats>
    decreases |h|
  {
    if h == [] then map[] else Apply(Replay(h[..|h| - 1]), h[|h| - 1])
  }

  /** The guild's most recently inserted history row (the one with the
      highest id), or None when the guild has no history row. */
  function Latest(h: seq<HistoryEntry>, guild: int): (r: Option<HistoryEntry>)
    ensures r.None? <==> forall i :: 0 <= i < |h| ==> h[i].guildId != guild
    ensures r.Some? ==> r.value.guildId == guild
    ensures r.Some? ==> exists i :: 0 <= i < |h| && h[i] == r.value && forall j :: i < j < |h| ==> h[j].guildId != guild
    decreases |h|
  {
    if h == [] then None
    else if h[|h| - 1].guildId == guild then Some(h[|h| - 1])
    else
      var prefix := h[..|h| - 1];
      assert forall i :: 0 <= i < |prefix| ==> prefix[i] == h[i];
      Latest(prefix, guild)
  }

  /** Win rows of the guild logged after its most recent manual update. */
  function WinsSinceReset(h: seq<HistoryEntry>, guild: int): nat
    decreases |h|
  {
    if h == [] then 0
    else
      var e := h[|h| - 1];
      if e.guildId != guild then WinsSinceReset(h[..|h| - 1], guild)
      else if e.action.ManualUpdate? then 0
      else if e.action.IsWin() then WinsSinceReset(h[..|h| - 1], guild) + 1
      else WinsSinceReset(h[..|h| - 1], guild)
  }

  /** Loss rows of the guild logged after its most recent manual update. */
  function LossesSinceReset(h: seq<HistoryEntry>, guild: int): nat
    decreases |h|
  {
    if h == [] then 0
    else
      var e := h[|h| - 1];
      if e.guildId != guild then LossesSinceReset(h[..|h| - 1], guild)
      else if e.action.ManualUpdate? then 0
      else if e.action.IsLoss() then LossesSinceReset(h[..|h| - 1], guild) + 1
      else LossesSinceReset(h[..|h| - 1], guild)
  }

  /** What a win or loss row does to the table, as one map update. */
  lemma ApplyEvent(m: map<int, Stats>, e: HistoryEntry)
    requires e.action.IsWin() || e.action.IsLoss()
    ensures var s := StatsOr(m, e.guildId);
            Apply(m, e) == m[e.guildId := Stats(s.wins + (if e.action.IsWin() then 1 else 0),
                                                s.losses + (if e.action.IsLoss() then 1 else 0),
                                                e.territories)]
  {
  }

  /** What a manual update row does to the table, as one map update. */
  lemma ApplyManual(m: map<int, Stats>, e: HistoryEntry)
    requires e.action.ManualUpdate?
    ensures Apply(m, e) == m[e.guildId := Stats(0, 0, e.territories)]
  {
  }

  /** History ids are the AUTOINCREMENT values 1, 2, 3, ... in log order. */
  predicate SequentialIds(h: seq<HistoryEntry>)
  {
    forall i :: 0 <= i < |h| ==> h[i].id == i + 1
  }

  /** A row appended with the next id keeps the ids sequential. */
  lemma SequentialIdsAppend(h: seq<HistoryEntry>, e: HistoryEntry)
    requires SequentialIds(h) && e.id == |h| + 1
    ensures SequentialIds(h + [e])
  {
  }

  /** Appending a row applies exactly that row to the replayed table. */
  lemma ReplayAppend(h: seq<HistoryEntry>, e: HistoryEntry)
    ensures Replay(h + [e]) == Apply(Replay(h), e)
  {
    assert (h + [e])[..|h|] == h;
  }

  /** The stats table agrees with the log: a guild has a stats row exactly when
      it has a history row; its territories are those of its latest history
      row, and its counters count the wins and losses logged since the guild's
      last manual update (which resets both to 0), or since its first row. */
  lemma {:induction false} ReplayAgreesWithLog(h: seq<HistoryEntry>, guild: int)
    ensures guild in Replay(h) <==> Latest(h, guild).Some?
    ensures guild in Replay(h) ==>
              Replay(h)[guild] == Stats(WinsSinceReset(h, guild), LossesSinceReset(h, guild),
                                        Latest(h, guild).value.territories)
    ensures guild !in Replay(h) ==> WinsSinceReset(h, guild) == 0 && LossesSinceReset(h, guild) == 0
    decreases |h|
  {
    if h != [] {
      var prefix, e := h[..|h| - 1], h[|h| - 1];
      ReplayAgreesWithLog(prefix, guild);
      if e.guildId == guild {
        var s := StatsOr(Replay(prefix), guild);
        assert s == Stats(WinsSinceReset(prefix, guild), LossesSinceReset(prefix, guild), s.territories);
      }
    }
  }

  /** A row of one guild leaves every other guild's replayed row as it was. */
  lemma ApplyOtherGuild(m: map<int, Stats>, e: HistoryEntry, guild: int)
    requires guild != e.guildId
    ensures guild in Apply(m, e) <==> guild in m
    ensures guild in m ==> Apply(m, e)[guild] == m[guild]
  {
  }
}
