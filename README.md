# lennybot draft core in Dafny

lennybot is a Discord bot that organises five-against-five in-house games.
A channel holds at most one draft session. Players fill it in one of two ways.
In a manual draft (`/new_game`), each player clicks a role button on the Blue
or Red team. In a random game (`/random_game`), ten players join a queue and
a `Random` button shuffles them into the ten seats. The `/assign_role`
command seats a named player directly; the handler does not check who issues
it. A dev mode, switched on with a password,
relaxes the one-seat-per-player rules. A `WIN` button ends the game. It logs
the game and updates each seated player's wins, losses and elo in the
`joueurs` collection. A leaderboard lists the players by elo, and an offline
script recomputes every elo from the win and loss counters.

The model has six modules:

- `Roster` (roster.dfy): roles, teams as JS-like objects whose role keys may
  be missing, `null` or a `<@id>` mention, and the gate that decides whether
  the WIN buttons are shown.
- `Sessions` (sessions.dfy): one session and every handler's effect on it, as
  pure transition functions with `Result` errors, plus the lemmas about
  queues, forming, claims and exclusivity.
- `Ledger` (ledger.dfy): the per-player statistics and the update applied
  when a game is won. It is a loop method, proved against a recursive
  specification.
- `EloRecompute` (elo_recompute.dfy): the offline recompute loop and its
  agreement with the live update.
- `Leaderboard` (leaderboard.dfy): the leaderboard's entries and their sort.
- `Bot` (bot.dfy): the `DraftBot` class. Its fields are the process state:
  `parties`, `devMode`, the statistics store and the game history. It has one
  method per command and button handler, and each method's new state is tied
  to the `Sessions` and `Ledger` functions.

Behaviour the code has, and which the model follows as written:

- `/assign_role` checks neither `finished` nor the player's other seats.
- Nothing stops a player from being queued and seated at the same time.
- The shuffle is an arbitrary permutation of the queue, passed in as
  `shuffled`.
- The recompute applies no lower bound, so an elo can go negative.

## Model

| member | source | states |
|---|---|---|
| Roster.MentionInjective | index.js:469-487 | Two players have the same `<@id>` mention exactly when they are the same player, so comparing seats by mention compares players |
| Roster.Opposite | index.js:440 | The other team is never the team itself |
| Roster.AllRolesFilledAgreesOnCompleteTeams | index.js:539-540 | The corrected check rejects empty random-game teams; on teams with all five keys it accepts exactly what the written check accepts |
| Roster.WinGateAsWrittenOnEmptyRandomGame | index.js:517-540 | No seat of the key-less teams of a fresh random game holds anyone, yet with dev mode off the gate as written offers the WIN buttons; the corrected gate does not |
| Sessions.NewManualGame | index.js:185-192 | A manual draft has five keys per team, every seat empty, no queue, not finished |
| Sessions.NewRandomGame | index.js:204-214 | A random game has an empty queue, two key-less teams, every seat empty, not finished |
| Sessions.IndexOf | index.js:394 | The result is -1 exactly when the id is absent; otherwise it is the first position of the id |
| Sessions.JoinQueue | index.js:308-322 | Refused iff (outside dev mode the player is already queued) or the queue holds ten, with the matching error; on success exactly the player is appended, the queue stays at most ten, and the teams and `finished` are unchanged |
| Sessions.JoinKeepsNoDup | index.js:310-313 | Outside dev mode, joining keeps the queue free of duplicates |
| Sessions.EleventhJoinRefused | index.js:316-319 | A full queue refuses every join; a player not yet queued gets the full-queue refusal |
| Sessions.LeaveQueue | index.js:392-401 | Refused iff the player is not queued; otherwise the first occurrence is removed, order is kept, the multiset loses exactly that one id, and nothing else changes |
| Sessions.LeaveKeepsNoDup | index.js:392-401 | Leaving keeps the queue free of duplicates |
| Sessions.SeatIndex | index.js:368-376 | Seat `(team, role)` reads one of the ten shuffled entries: Blue's seats read the first five and Red's the last five, and the role at that position in the role order is `role` |
| Sessions.SeatIndexInjective | index.js:368-376 | Two seats read the same shuffled entry only when they are the same seat |
| Sessions.FormTeams | index.js:360-387 | Refused iff the session has no queue of exactly ten; otherwise every seat holds the mention of its shuffled entry, both teams carry all five keys, the queue is emptied and `finished` is kept |
| Sessions.FormTeamsSeatsPermuteQueue | index.js:367-376 | After forming, the ten seats hold exactly the mentions of the queued players, as a multiset |
| Sessions.FormTeamsExclusive | index.js:367-376 | Forming from a duplicate-free queue seats no player twice |
| Sessions.WinGateAfterCreationAndForming | index.js:515-548 | A new manual draft shows the WIN buttons iff dev mode is on, under both the written and the intended gate; after a successful forming they are offered |
| Sessions.ClaimRole | index.js:467-489 | A role click is ignored unless the session is manual or has an empty queue. Otherwise, in order: cross-team refusal outside dev mode; refusal on a seat held by someone else, even in dev mode; release of one's own seat; refusal when already on the team outside dev mode; else the seat is taken. Each outcome is stated with its exact condition and new session |
| Sessions.ClaimKeepsExclusive | index.js:467-489 | Outside dev mode, a claim or release keeps every player in at most one seat across both teams |
| Sessions.ClaimToggle | index.js:474-483 | Taking a free seat and clicking it again releases it, which restores the prior roster when the role key was present |
| Sessions.AssignRole | index.js:244-262 | Refused iff the seat is occupied. Otherwise only that seat changes, to the target's mention; the team gains at most that one key, the other team is untouched, and the queue and `finished` are kept |
| Sessions.AssignRoleBypassesChecks | index.js:255-262 | The privileged path can seat a player on both teams, since it checks neither other seats nor `finished` |
| Ledger.Credit | index.js:121-143 | One filled seat: the player's record, or a fresh record worth 200, gains one result and its elo change; no other record changes |
| Ledger.CreditSeatsEffect | index.js:116-146 | Crediting a team gives each player one result per seat held and creates a record iff the player had none and holds a seat |
| Ledger.GameStatsEffect | index.js:108-150 | After a game each player has wins plus winning seats, losses plus losing seats, and elo plus 25 per win and minus 15 per loss from a 200 base; players with no seat are untouched |
| Ledger.RecordStats | index.js:108-150 | The two nested loops compute exactly `GameStats` and never drop a record |
| EloRecompute.Recomputed | script_maj_elo.js:17-27 | Same players and counters; every record then satisfies the elo formula |
| EloRecompute.RecomputeAll | script_maj_elo.js:14-30 | The loop visits each stored player exactly once and sets only the elo, to 200 + 25·wins − 15·losses |
| EloRecompute.RecomputeIdempotent | script_maj_elo.js:21 | Running the recompute twice equals running it once |
| EloRecompute.RecomputeFixesExactlyConsistent | script_maj_elo.js:21-27 | The recompute changes nothing iff every record already satisfies the formula |
| EloRecompute.GameStatsKeepsConsistent | index.js:121-143 | The live update keeps every record equal to what the formula gives for its counters |
| EloRecompute.LiveAndBatchAgree | script_maj_elo.js:21 | On a consistent store, recomputing after a live update is a no-op |
| EloRecompute.RecomputedEloCanBeNegative | script_maj_elo.js:21 | No clamp: fourteen losses and no win give -10 |
| Leaderboard.WinRate | index.js:30-31 | The winrate lies in [0, 100]; it is 0 with no game and 100 with only wins |
| Leaderboard.Entries | index.js:28-39 | One entry per document, in order, carrying its counters, elo and winrate |
| Leaderboard.InsertKeepsOrder | index.js:40 | Inserting into an elo-descending sequence keeps it descending |
| Leaderboard.SortByElo | index.js:40 | The result is a permutation of the entries with elo non-increasing |
| Leaderboard.GetLeaderboard | index.js:23-43 | The leaderboard has one line per player, is a permutation of the documents' entries, and is ordered by elo, highest first |
| Leaderboard.DistinctIdsCount | index.js:25 | A listing whose ids are distinct has as many ids as documents |
| Leaderboard.LeaderboardSizeIsStoreSize | index.js:25-40 | Over a listing of the store (each stored player once, with its record), the leaderboard has exactly as many lines as stored players |
| Leaderboard.LeaderboardCoversStore | index.js:25-40 | Every stored player has a line carrying their stored record and its winrate |
| Leaderboard.LeaderboardLineIsStored | index.js:25-40 | Every line is the entry of a stored player's stored record |
| Bot.ButtonGuard | index.js:298-306 | A click passes iff the channel has a session that is not finished; otherwise it gets the matching refusal |
| Bot.SeatPrefixFive | index.js:371-376 | The role-by-role seating loop ends with all five roles seated as in `Sessions.FormTeams` |
| Bot.DraftBot.constructor | index.js:8-9 | The process starts with no session and dev mode off |
| Bot.DraftBot.NewGame | index.js:185-192 | The channel's session, finished or not, becomes a fresh manual draft; nothing else changes |
| Bot.DraftBot.RandomGame | index.js:204-214 | The channel's session becomes a fresh random game; nothing else changes |
| Bot.DraftBot.AssignRole | index.js:244-262 | Refused without a session or on a taken seat; otherwise the session becomes `Sessions.AssignRole`'s result, even when finished |
| Bot.DraftBot.DevOn | index.js:265-273 | Dev mode is switched on iff the password equals the configured secret; otherwise it is refused and unchanged; sessions, statistics and history are unchanged |
| Bot.DraftBot.DevOff | index.js:276-286 | Dev mode is off; sessions, statistics and history are unchanged; when the invoking channel's session has key-less team objects, the re-render shows the WIN row as written, while the intended gate hides it |
| Bot.DraftBot.JoinRandom | index.js:298-356 | Guard refusals change nothing; otherwise the session and reply follow `Sessions.JoinQueue`; queues stay at most ten and finished sessions stay finished |
| Bot.DraftBot.LeaveQueue | index.js:392-434 | Guard refusals change nothing; otherwise the session and reply follow `Sessions.LeaveQueue` |
| Bot.DraftBot.FormTeams | index.js:360-387 | Guard refusals change nothing; otherwise `Sessions.FormTeams` applies, and a formed session shows the WIN buttons under both the written and the intended gate |
| Bot.DraftBot.ClaimRole | index.js:467-492 | Guard refusals change nothing; otherwise the outcome of `Sessions.ClaimRole` is applied, with a silent reply when ignored; outside dev mode exclusivity is preserved |
| Bot.DraftBot.Win | index.js:439-462 | Guard refusals change nothing. Otherwise the session is marked finished, the game is appended to the history with both rosters and the winner, and the statistics become `GameStats` of winners and losers, keeping them consistent with the recompute formula |

## Left out

- Discord I/O is left out. That covers message rendering and editing,
  embeds, ephemeral flags, `messageId`, and the button rows other than the
  WIN gate. `generateRecapEmbed` and `formatTeamRoles` are not modelled,
  because they only produce display text.
- MongoDB is a map held by the model. Per-player `try/catch` failures and a
  failed history insert are not modelled.
- The `leaderboard` command and `createLeaderboardChannel` are modelled only
  through `GetLeaderboard`. Posting to the channel is I/O.
- `Math.random` is not modelled. The shuffle is a parameter, and the only
  requirement on it is that it permutes the queue; a uniform distribution is
  not modelled.
- Handlers run atomically here. The source awaits I/O in the middle of
  handlers, so interleavings between awaits are not modelled.
- The history record's `date` field and the environment variables are left
  out. The dev password secret is a parameter: `None` when unset.
- deploy-commands.js is not part of this model. It only registers commands.
- script_maj_elo.js's connect and close calls are not modelled. Their errors
  are logged.
- Bot.DraftBot.AssignRole: takes the team as `Blue`/`Red` and the role as one
  of the five roles. The source reads both as free strings
  (`getString`, index.js:247-248) and validates neither. An unknown team makes
  the handler throw when it reads a role of an undefined team. An unknown role
  is written as an extra key on the team. That key then counts in the claim
  checks' `Object.values(...).includes` (index.js:469, 484), which refuses the
  player every real seat outside dev mode, and a WIN credits it through
  `for (const role in equipe)` (index.js:117). The model does not capture
  those extra keys.
- Bot.DraftBot.JoinRandom: requires a random game when the guard passes. On a
  manual draft the source reads `players` of undefined and throws.
- Bot.DraftBot.LeaveQueue: requires a random game when the guard passes, for
  the same reason.
- Leaderboard.WinRate: is an exact real. The source's float division and
  its `toFixed(2)` string are not modelled.
- Leaderboard.SortByElo: states a permutation ordered by elo. It does not
  state how ties are ordered. JavaScript's sort is stable, and the insertion
  sort used here keeps equal elos in input order, but that is not proved.
- Ledger.RecordStats: visits roles in the order TOP, JGL, MID, ADC, SUPP
  rather than the object's key insertion order. The resulting store depends
  only on per-player seat counts.
- EloRecompute.RecomputeAll: visits players in an unspecified order. The
  store's listing order is not modelled.
- Button custom-id parsing (`customId.split('_')`) is not modelled. Each
  handler is its own method with a typed team and role.

## Findings

| source | as written | input that shows it | evidently intended | confidence | as-written member | corrected member |
|---|---|---|---|---|---|---|
| index.js:517 | `allRolesFilled` checks `every` over `Object.values` of each team, which is vacuously true for the key-less `{}` teams of a random game | `/random_game`, then `/dev_off` in that channel: the re-render shows WIN BLUE / WIN RED with no player seated, and a WIN click then records a game with empty rosters | the WIN row appears only when all ten seats hold a player (index.js:539), or in dev mode | high, not executed | Roster.WinGateAsWrittenOnEmptyRandomGame | Roster.AllRolesFilledAgreesOnCompleteTeams |
