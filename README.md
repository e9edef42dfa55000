# Territory statistics bot — a Dafny model of its command core

The bot (`discord_bot.py`) lets the members of a chat guild report the outcome
of territory-game actions — attack win, attack loss, defense win, defense loss —
each with a screenshot, and keeps per guild a win counter, a loss counter and a
territory count, plus an append-only history of every report. Administrators
configure a role that gates the reporting commands and a channel for results.

This project models the part of the bot that decides and stores: its three
SQLite tables and the handlers that write them.

- `schema.dfy` (module `Schema`): the rows of `stats`, `history` and
  `bot_settings` as datatypes, the column defaults, the five `action_type`
  tags, and the attachment fields the handlers read.
- `rules.dfy` (module `Rules`): the pure decisions. These are the clamped
  transitions `min(t + 1, 18)` and `max(t - 1, 0)`, the case-insensitive
  `.png`/`.jpg`/`.jpeg` file-name test, the role gate of `has_permission`, and
  the win/loss percentages of `/rate`.
- `log.dfy` (module `Log`): the specification of the stats table as a replay
  of the history log. Every handler that writes a stats row appends exactly one
  history row in the same commit, so `Replay(history)` rebuilds the table.
  `ReplayAgreesWithLog` then says what each row means. A guild has a row
  exactly when it has a history entry. Its territories are those of its latest
  entry. Its counters count the wins and losses logged since its last
  `/current`.
- `bot.dfy` (module `Bot`): class `GameStore` with the three tables as fields
  (`stats: map<int, Stats>`, `settings: map<int, Settings>`,
  `history: seq<HistoryEntry>`) and one method per command. Every method
  states its complete new state. The class invariant `Valid()` says that
  `stats == Replay(history)` and that history ids are 1, 2, 3, … like the
  AUTOINCREMENT key.
- `scenarios.dfy` (module `Scenarios`): end-to-end command sequences on a
  fresh store, each proved to leave the stated table contents.

The chat platform's inputs become parameters: the guild id, the caller's id,
the set of role ids the caller holds, the administrator flag, the attachment's
file name and URL, the optional note, and the timestamp string that
`datetime.now()` would give.

Two effects of SQLite's `INSERT OR REPLACE` are modelled as the code has them:

- `/current` replaces the stats row with only `guild_id` and `territories`
  given, so that guild's wins and losses return to their default 0
  (`GameStore.Current`, `Log.Apply`).
- `/addrole` and `/addchannel` each replace the settings row with one column
  given, so each clears the other. In particular `/addchannel` removes a
  configured role gate (`Bot.GateAfterAddChannel`,
  `Scenarios.ChannelDropsRoleGate`).

Further behaviours of the code that the model keeps:

- Nothing keeps a stats row's territories in 0..18, because `/current`
  stores any value. An attack win never yields more than 18, a defense loss
  never yields less than 0, and a count in 0..18 stays in 0..18 under every
  event (`Rules.EventsKeepRange`).
- A stored role id 0 counts as no role configured, like a missing row or a
  NULL column (discord_bot.py:62, `not role_id[0]`); see `Rules.Permitted`.
- "The latest history row" of a guild (`Log.Latest`) is the one inserted
  last, which is the one with the highest AUTOINCREMENT id. The recent-games
  list of `/rate` (discord_bot.py:97-99) orders by the timestamp text
  instead. That text is local wall-clock time to the second
  (discord_bot.py:206, 322, 383), so the two orders can disagree: two rows
  written in the same second tie on the timestamp, and a clock set back (a
  daylight-saving change, say) gives a later row an earlier timestamp.

## Model

| member | source | states |
|---|---|---|
| `Schema.TagsDistinct` | discord_bot.py:307-312 | the five `action_type` strings written by the handlers are pairwise different, so a tag identifies its action |
| `Rules.WinTerritories` | discord_bot.py:307-312 | an attack win gives at most 18 and at most one more than before, and exactly one more unless capped at 18 (even from a count above 18); a defense win keeps the count |
| `Rules.LooseTerritories` | discord_bot.py:368-373 | a defense loss gives at least 0 and at least one less than before, and exactly one less unless floored at 0; an attack loss keeps the count |
| `Rules.EventTerritories` | discord_bot.py:306-312 | the count stored for a logged event: an attack win gives min(t + 1, 18), a defense win and an attack loss keep t, a defense loss gives max(t - 1, 0) |
| `Rules.EventsKeepRange` | discord_bot.py:367-373 | from a count in 0..18, every win and loss event leaves the count in 0..18 |
| `Rules.RepeatedAttackWins` | discord_bot.py:307-308 | n > 0 attack wins in a row from t leave min(t + n, 18) |
| `Rules.RepeatedDefenseLosses` | discord_bot.py:368-369 | n > 0 defense losses in a row from t leave max(t - n, 0) |
| `Rules.Lower` | discord_bot.py:292 | lower-casing keeps the length, leaves no upper-case ASCII letter, maps each upper-case letter to its lower-case partner and leaves every other character as it was |
| `Rules.HasImageExtension` | discord_bot.py:292 | accepted exactly when the lower-cased file name ends with one of ".png", ".jpg", ".jpeg" |
| `Rules.ImageExtensionAfterAnyStem` | discord_bot.py:353 | any name ending in an accepted extension, in any letter case (".PNG", ".Jpeg"), is accepted |
| `Rules.ImageExtensionIgnoresCase` | discord_bot.py:292 | the test gives the same answer for a name and its lower-cased form |
| `Rules.ImageNameShape` | discord_bot.py:292 | every accepted name has at least four characters and ends in "g" or "G" |
| `Rules.ImageExtensionRejects` | discord_bot.py:353 | "photo.gif", "png" (no dot), "shot.png.txt" and the empty name are refused |
| `Rules.Permitted` | discord_bot.py:55-73 | a caller passes exactly when the guild has no settings row, or its role column is NULL or 0, or the caller holds the configured role |
| `Rules.PermittedMonotone` | discord_bot.py:65-67 | a caller who passes still passes while holding more roles |
| `Rules.WinRate` | discord_bot.py:103 | the win percentage lies in 0..100, is 0 when no game was played, and otherwise times the game total equals 100 times the wins |
| `Rules.LossRate` | discord_bot.py:104 | the loss percentage lies in 0..100, is 0 when no game was played, and otherwise times the game total equals 100 times the losses |
| `Rules.RatesComplement` | discord_bot.py:103-104 | once a game was played, the win and loss percentages add up to 100 |
| `Log.Latest` | discord_bot.py:25-33 | the guild's latest history row is absent exactly when no row of the log belongs to the guild; otherwise it is a row of that guild with no row of the guild after it in insertion (id) order |
| `Log.ApplyEvent` | discord_bot.py:314-319 | replaying a win or loss row bumps exactly that event's counter on the guild's row (created with defaults if missing) and stores the row's territories; no other guild's row changes |
| `Log.ApplyManual` | discord_bot.py:202-203 | replaying a manual update row replaces the guild's row by (0 wins, 0 losses, the row's territories) |
| `Log.SequentialIdsAppend` | discord_bot.py:26 | a row appended with the next id keeps the history ids equal to 1, 2, 3, ... in log order |
| `Log.ReplayAppend` | discord_bot.py:321-327 | replaying a log with one more row equals applying that row to the replay of the shorter log |
| `Log.ReplayAgreesWithLog` | discord_bot.py:19-33 | the stats table replayed from the log has a row for a guild exactly when the log has an entry for it; that row's territories equal the guild's latest entry's, and its wins and losses count the guild's win and loss entries since its last manual update (0 if there are none) |
| `Log.ApplyOtherGuild` | discord_bot.py:376-380 | a logged event leaves the rows of every other guild as they were |
| `Bot.GameStore.constructor` | discord_bot.py:15-41 | a fresh database has empty stats, settings and history tables, and satisfies the store invariant |
| `Bot.GameStore.ProcessWin` | discord_bot.py:288-327 | a caller failing the role gate, or then a file name without an image extension, changes no table; otherwise wins go up by 1, losses stay, territories become min(t + 1, 18) for attack or stay for defense, one history row tagged att_win/def_win records the new count, URL and note, no other guild's row changes, and the store invariant is kept |
| `Bot.GameStore.ProcessLoose` | discord_bot.py:349-388 | as ProcessWin with losses up by 1, wins unchanged, territories max(t - 1, 0) for defense or unchanged for attack, and the tag def_loose/att_loose |
| `Bot.GameStore.RecordEvent` | discord_bot.py:301-319 | the accepted path of both handlers: the guild's row, created with defaults if missing, gets the event's counter bumped and the transitioned territories, and one history row is appended |
| `Bot.GameStore.Current` | discord_bot.py:192-211 | a caller failing the role gate changes nothing; otherwise the guild's row becomes exactly (0 wins, 0 losses, v territories) with no clamping, and one manual_update row with an empty URL records v |
| `Bot.GameStore.AddRole` | discord_bot.py:167-181 | a non-administrator changes nothing; an administrator replaces the guild's settings row with the role set and the stats channel cleared; the store invariant is kept |
| `Bot.GameStore.AddChannel` | discord_bot.py:230-244 | a non-administrator changes nothing; an administrator replaces the guild's settings row with the channel set and the role cleared; the store invariant is kept |
| `Bot.GameStore.Rate` | discord_bot.py:81-93 | the /rate lookup finds a stats row exactly when the guild has history; the row holds its latest history entry's territories and the wins and losses logged since its last manual update |
| `Bot.GateAfterAddRole` | discord_bot.py:177-179 | after /addrole with a non-zero role, exactly the holders of that role pass the gate in that guild |
| `Bot.GateAfterAddChannel` | discord_bot.py:240-242 | after /addchannel every caller passes the gate in that guild, whatever role was configured before |
| `Scenarios.PngAccepted` | discord_bot.py:292 | "photo.png" passes the file-name test |
| `Scenarios.FreshAttackWin` | discord_bot.py:302-327 | on a fresh guild one /att_win with "photo.png" leaves territories 1, wins 1, and a single history row tagged att_win with territories 1 |
| `Scenarios.TwentyAttackWins` | discord_bot.py:307-319 | twenty /att_win reports on a fresh guild leave territories 18, wins 20, losses 0 and twenty history rows |
| `Scenarios.DefenseLossAtZero` | discord_bot.py:368-380 | /def_loose on a fresh guild keeps territories at 0 and sets losses to 1 |
| `Scenarios.ManualCorrection` | discord_bot.py:202-211 | /current 5 after three reports leaves (0, 0, 5) and a fourth history row tagged manual_update with territories 5, an empty URL and the note |
| `Scenarios.ChannelDropsRoleGate` | discord_bot.py:240-242 | with role 7 configured a caller without it is refused and nothing is logged; after /addchannel the same caller's report is recorded |
| `Scenarios.Rejections` | discord_bot.py:168-173 | a GIF report is refused with nothing logged, and a non-administrator's /addrole leaves no settings row |

## Left out

- The chat-platform runtime is not modelled. This covers the client, command registration and sync, replies, deferrals, embeds and reactions. Only the outcome of each handler is kept (`EventOutcome`, `AdminOutcome`).
- `send_to_stats_channel` (discord_bot.py:410-429) is not modelled. It reads the settings table and posts to a channel. It writes no table.
- SQLite connections, cursors and commits are not modelled. Each handler commits once, so a method's whole update is one step.
- The clock is a parameter: the timestamp string is passed in, not produced by `datetime.now()`.
- The `/rate` rendering is left out: the floating-point formatting, the emoji bar rounding, the `%H:%M` reformatting and the day-of-month "trend". Only the stats lookup (`GameStore.Rate`) and the percentages (`WinRate`, `LossRate`) are modelled, on exact `real` numbers.
- The five most recent history rows of `/rate` are left out. SQL leaves their order unspecified when timestamps are equal.
- Role resolution through the guild's role list is replaced by the set of role ids the caller holds. A configured role that no longer exists is simply a role id the caller does not hold.
- Interleaving of handlers is not modelled. Each handler runs on one event loop and has no `await` between opening the database and committing (discord_bot.py:198-213, 298-329, 359-390), so each method running to completion on its own is what the code does. The window that is left out lies between the role check (discord_bot.py:193, 289, 350) and the write, across `await interaction.response.defer()` (discord_bot.py:196, 296, 357): an `/addrole` handled during that await does not stop a report that has already passed the gate, whereas the model checks the gate against the settings at the moment of the write.
- Rules.Lower: lower-cases ASCII letters only. Python's `str.lower` also lower-cases other letters, which cannot turn any name into one ending in `.png`, `.jpg` or `.jpeg`.
- SQLite's 64-bit INTEGER limit on ids, counters and territories is not modelled. The model uses unbounded integers.
- The application start-up (`on_ready`, `load_dotenv`, `bot.run`) is left out.
