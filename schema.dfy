/** The rows of the bot's three tables (stats, history, bot_settings) and the
    values the command handlers receive from the chat platform. */
module Schema {

  /** A nullable column or an optional command argument (SQL NULL / Python None). */
  datatype Option<+T> = None | Some(value: T)

  /** Upper bound of the territory count used by the attack-win clamp. */
  const MaxTerritories: int := 18

  /** A row of `stats`, keyed by guild id. The counters only ever start at the
      column default 0 and are incremented, hence `nat`; `territories` is an
      unconstrained INTEGER column (a manual set can store any value). */
  datatype Stats = Stats(wins: nat, losses: nat, territories: int)

  /** The row `INSERT OR IGNORE INTO stats (guild_id)` creates: every column at its default. */
  const DefaultStats: Stats := Stats(0, 0, 0)

  /** A row of `bot_settings`, keyed by guild id; both columns are nullable. */
  datatype Settings = Settings(statsChannelId: Option<int>, allowedRoleId: Option<int>)

  /** The five values the `action_type` column takes. */
  datatype Action = AttWin | AttLoose | DefWin | DefLoose | ManualUpdate {

    /** The literal text stored in `action_type`. */
    function Tag(): string
    {
      match this
      case AttWin => "att_win"
      case AttLoose => "att_loose"
      case DefWin => "def_win"
      case DefLoose => "def_loose"
      case ManualUpdate => "manual_update"
    }

    predicate IsWin() { AttWin? || DefWin? }

    predicate IsLoss() { AttLoose? || DefLoose? }
  }

  /** The stored tags tell the actions apart, so the log is unambiguous. */
  lemma TagsDistinct(a: Action, b: Action)
    ensures a.Tag() == b.Tag() <==> a == b
  {
    if a != b {
      assert |a.Tag()| != |b.Tag()| || a.Tag()[0] != b.Tag()[0];
    }
  }

  /** A row of `history`; `id` is the AUTOINCREMENT key. */
  datatype HistoryEntry = HistoryEntry(
    id: int,
    guildId: int,
    userId: int,
    action: Action,
    timestamp: string,
    screenshotUrl: string,
    territories: int,
    note: Option<string>)

  /** The two attachment fields the handlers use. */
  datatype Attachment = Attachment(filename: string, url: string)
}
