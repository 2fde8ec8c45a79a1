# Dota challenge tracker: a verified model of the scoring pipeline

This project models the scoring core of a tracker that awards unofficial
"challenge" points to a fixed roster of Dota 2 players for the matches they
play, and proves properties of the model in Dafny.

It has four stages and one older checker:

- **Rule engine** (module `Challenges`, challenges.py). For every tracked
  player of a match it emits an ordered list of signed-point triggers and
  advances that player's win/lose streak in the leaderboard.
- **Readiness gate** (module `Validation`, validation.py). A pure verdict on
  whether a fetched match record can be scored yet, or names what is still
  missing.
- **Per-match pipeline** (module `Processor`, processor.py). It is an
  idempotent state machine over the store:
  - skip a match that is already handled;
  - defer a record that fails the gate, with a retry count;
  - otherwise score it, log the triggers, mark the match checked, drop it from
    the retry queue and book each tracked player's points in their per-match
    summaries and running total.
- **Run loop** (module `RunLoop`, main.py). It drains a snapshot of the retry
  queue, then pages through every roster member's history with a growing
  offset, processing each match at most once per run. It also builds the
  top-three summary and provides the single-match test entry point.
- **Earlier checker** (module `DraftChecker`, python_challenge_checker.py).
  It is self-contained, with its own rule table: loss rewards, a winner's
  penalty, and cross-player team rules. Its run writes points, history lines
  and daily totals.

Shared definitions:
- Match records, the roster and the paged history source are in
  `MatchData`.
- Trigger values are in `Triggers`.
- The store and its invariants are in `Store`.

Each store is a class whose fields the methods update in place:
- `Store.Store` holds the checked, unparsed, leaderboard and challenge-log
  maps;
- `DraftChecker.DraftStore` holds the checked, leaderboard, daily and
  last-checked fields.

Every loop of the source that changes the store, and the loops that build
trigger lists or the top-three listing, are methods with `while` loops. Each
method is proved against a function of the old state or of its inputs. The
readiness gate, whose loops only test fields and return, is a set of
recursive functions. The source's promises are lemmas
about those functions:
- the streak rules, the point formulas and the rule table;
- the gate's verdict as an if-and-only-if;
- idempotence, deferral and success bookkeeping;
- point conservation (a running total is the sum of its per-match subtotals,
  each the sum of its challenges) kept as an invariant;
- the run keeping every handled match checked;
- the top-three ordering;
- the draft's duo, low-damage and thrown-game rules, and the ledger
  invariant (points equal the history sum, daily totals the sum of that
  day's history).

Modelling conventions:
- An absent key of a record is `None`; `x or 0` and `.get(k, 0)` are
  `OrZero`.
- An absent `account_id` is an anonymous player, never tracked.
- The fetch of a full match is a parameter `Option<Match>`, or a
  `map<int, Match>` source. `None` stands for every result the pipeline
  treats as no record (an error, a 404, an empty body).
- A player's history is a given finite sequence of listed matches, newest
  first. A page is the slice at `offset` of length `limit`, keeping the
  matches from the cutoff on. The paging loop ends because the page past the
  end is empty.
- Times are integers: the match start time in seconds, and a day as that
  time divided by 86400. The wall-clock "now" is a parameter.
- Dictionary iteration orders are parameters: a sequence that lists each key
  once. This covers the retry snapshot, the roster and the leaderboard.
- A leaderboard entry of the newer pipeline is its streak state plus an
  optional profile (name, running total, per-match summaries). The profile
  is `None` while the entry holds only the streak keys, as the rule engine
  creates it.

## Model

| member | source | states |
|---|---|---|
| MatchData.Friends | challenges.py:14 | the tracked players are exactly the players of the list whose account id is on the roster, never more than the list |
| MatchData.FriendsNone | challenges.py:14-16 | a player list without a tracked player yields no friends |
| MatchData.AccountIds | processor.py:54 | the account-id list of a match has one entry per player, in player order, each that player's id |
| MatchData.HeroName | data.py:43-51 | a hero id in the table gives the table's name, any other id gives "Hero " followed by the id |
| MatchData.WindowMembers | api.py:23-27 | an id is in a window exactly when an entry of that range has that id and started at or after the cutoff; the window is never longer than its range |
| MatchData.PageSpec | api.py:11-30 | a page holds at most `limit` ids, a non-empty page starts inside the history, and an id is on the page exactly when a listed entry at positions offset to offset+limit has it and started at or after the cutoff |
| MatchData.MatchTime | challenges.py:10 | the match start time in seconds, read as 0 when absent; every trigger, log entry and checked entry carries it |
| MatchData.IsRadiant | challenges.py:31 | a player is on the Radiant side exactly when its slot is below 128, an absent slot reading as 0 |
| MatchData.EnemyBarracks | challenges.py:31-34 | the opponent's barracks status seen from a player: the Dire value for a Radiant player and the Radiant value otherwise, 0 when absent |
| MatchData.Page | api.py:11-30 | one page of a member's history: the ids, in listing order, of the entries at offset up to offset+limit that started on or after the cutoff (PageSpec states its contents) |
| Validation.MissingStat | validation.py:37-48 | no stat is reported missing exactly when kills, deaths, assists, win, tower damage and hero id are all present, and a reported stat is absent |
| Validation.CheckFriends | validation.py:42-50 | the per-friend loop passes exactly when every tracked player has all required stats, and otherwise waits for a player's field |
| Validation.IsMatchFullyParsed | validation.py:3-50 | the verdict is `Parsed` exactly when all four match-level keys are present, there are at least ten players, any truthy expected friend is among the tracked players, and every tracked player has every required stat; a missing match key or fewer than ten players gives that specific reason, in the source's order |
| Validation.NoFriendsShortcut | validation.py:32-33 | no tracked player and no expected friend, with the match keys and ten players present, is ready without per-player checks |
| Validation.PrivacyBeforeShortcut | validation.py:28-33 | a truthy expected friend missing from the tracked players defers with the privacy reason naming that friend, even when no player is tracked |
| Validation.MissingStatDefers | validation.py:42-48 | any tracked player with a missing required stat defers the match |
| Validation.ReadyTransfers | validation.py:10-48 | readiness carries over between two records that agree on every key the gate reads |
| Validation.UncheckedFieldsIgnored | validation.py:37-40 | party size, multi-kills, player slot, hero damage and start time never change whether a match is ready |
| Store.Store.constructor | data.py:35-36 | the fallback store has its checked, unparsed, leaderboard and challenge-log maps empty |
| Challenges.NextStreak | challenges.py:66-80 | after a win the lose run is 0 and the win run at least 1, after a loss the reverse; the result is recorded as the last one and the streak stays well-formed (WinRun and LossRun give the exact counts) |
| Challenges.RampagePoints | challenges.py:56-58 | r rampages are worth at least 15, a multiple of 3 above 15, and exactly 15 only for one |
| Challenges.HighKillPoints | challenges.py:87-92 | the 15+ kill reward is 5, doubled when deathless and tripled when without assists: 30 exactly when both hold, 10 exactly when only deathless, 15 exactly when only without assists, 5 exactly when neither |
| Challenges.Rules | challenges.py:49-160 | the sixteen rules of the engine in source order, each a condition, a challenge and its points, read on the streak after this match (the rule lemmas below state every row) |
| Challenges.PlayerTriggers | challenges.py:36-160 | a player's triggers are the rules that fire, in table order, each carrying the player's base fields |
| Challenges.RulesDistinct | challenges.py:49-160 | the rule table has sixteen rows and no two name the same challenge |
| Challenges.Emit | challenges.py:36-41 | the fired rows yield no more triggers than there are rows, and every trigger carries the player's account id |
| Challenges.RuleOf | challenges.py:49-160 | each challenge of the table fires at most once per player and match, with that row's points exactly when its condition holds |
| Challenges.StreakRules | challenges.py:70-139 | "5 Win Streak" (+5) fires exactly on a win with win run 5, "Win Streak Extended" (+1) exactly above 5; the loss rules mirror them with -5 and -1 |
| Challenges.RampageRule | challenges.py:53-63 | one "Rampage x{r}" trigger worth 15 + 3(r-1) when the histogram holds r > 0 rampages, and no rampage trigger of any other count |
| Challenges.RampageAbsent | challenges.py:53-63 | no row of the table names a rampage count other than the player's own |
| Challenges.HighKillRule | challenges.py:86-97 | from 15 kills on exactly one "15+ Kill Game" trigger worth 5, times 2 when deathless, times 3 without assists; none below 15 kills |
| Challenges.BarracksRules | challenges.py:99-147 | a winner gets exactly one of +10 (enemy barracks 63) and +1 (otherwise), a loser neither; "Lost vs Megas" (-5) fires exactly on a loss with enemy barracks 0 |
| Challenges.PenaltyRules | challenges.py:117-156 | tower damage below 100 costs -3 at 0 and -1 otherwise; no kills costs -40 without assists and -20 with; 20+ deaths cost -20 without kills and -10 with, whatever the result |
| Challenges.QuickRules | challenges.py:82-160 | a game under 1500 seconds gives +3 on a win and -5 on a loss, and nothing otherwise |
| Challenges.StackRules | challenges.py:49-115 | a party of five gives +5 on a win and -5 on a loss, and nothing otherwise |
| Challenges.ScoreFriends | challenges.py:20-167 | the engine over the tracked players in order: each reads the streak the earlier ones left, its triggers are appended, and its entry gets the successor streak with the per-match keys kept (ScoreFriendsFrame, ShareOfFriend) |
| Challenges.Score | challenges.py:4-169 | the rule engine as a value: the triggers and new leaderboard of the pass over the match's tracked players (CheckChallenges is proved against it) |
| Challenges.CheckChallenges | challenges.py:4-169 | the pass over the tracked players yields the triggers and leaderboard of `Score` and the match start time, and touches no other part of the store |
| Challenges.CheckStep | challenges.py:20-167 | one tracked player: the entry is created when absent, the streak advanced, the player's triggers appended, as one more step of `ScoreFriends` |
| Challenges.NoFriendsNoChange | challenges.py:14-16 | a match without tracked players yields no triggers and an unchanged leaderboard |
| Challenges.ScoreFriendsFrame | challenges.py:43-167 | only tracked players' entries are written (others kept), the per-match keys of every entry are kept, and every written streak is exclusive with its last result set |
| Challenges.ScorePreservesInvariant | challenges.py:165-167 | the rule engine keeps the leaderboard invariant (exclusive streaks, conserved points) |
| Challenges.TriggersOfFriends | challenges.py:20-41 | every trigger belongs to one of the scored players |
| Challenges.ShareOfFriend | challenges.py:20-167 | a tracked player listed once gets exactly the rule table evaluated on the streak found before the match, and is left with its successor streak |
| Challenges.ShareNone | challenges.py:20-43 | a player not scored has no triggers and keeps its streak |
| Challenges.WinRun | challenges.py:70-77 | n wins in a row after anything but a win leave a win run of exactly n, so the fifth win is the one that earns "5 Win Streak" |
| Challenges.LossRun | challenges.py:78-80 | n losses in a row after anything but a loss leave a lose run of exactly n |
| Processor.Stamp | processor.py:44-48 | the log entries are the triggers in order, each stamped with the match time |
| Processor.Entries | processor.py:89-92 | the `{name, points}` list has one entry per trigger and adds up to the triggers' total |
| Processor.FriendNames | processor.py:65 | one name per tracked player, each its roster name, in player order |
| Processor.FreshRecord | processor.py:78-86 | a new per-match summary has no challenges and a zero subtotal |
| Processor.NewProfile | processor.py:71-75 | a first-time profile has no points and no per-match summaries |
| Processor.CreditKeepsProfileOk | processor.py:88-93 | booking a share keeps the running total equal to the sum of the per-match subtotals and each subtotal equal to the sum of its challenges |
| Processor.CreditPlayer | processor.py:68-93 | the corrected booking of one tracked player: an entry without per-match keys gets the first-time defaults, the streak is kept, and the player's share is credited under the match id (FriendBooked) |
| Processor.CreditFriends | processor.py:67-93 | the booking loop over the tracked players in order (CreditFriendsOther, CreditFriendsOnce, CreditFriendsOk) |
| Processor.Scored | processor.py:39-93 | the store after a match passes the gate: rule engine run, triggers logged, match checked with its start time, duration and ids, removed from the queue, every tracked player booked (SuccessBookkeeping, FriendBooked) |
| Processor.Process | processor.py:9-102 | the pipeline as a value: an id already checked or handled answers True unchanged, a missing record answers False, a record failing the gate is queued and answers False, any other is scored and answers True (SkipHandled, FetchFailure, Deferral, SuccessBookkeeping) |
| Processor.SkipHandled | processor.py:16-20 | an id already checked or handled in this run returns True and leaves the store unchanged, whatever the fetch returns |
| Processor.ProcessIdempotent | processor.py:16-57 | once a call returns True, a second call for the id returns True and changes nothing |
| Processor.FetchFailure | processor.py:22-25 | a fetch without a record returns False and changes nothing |
| Processor.Deferral | processor.py:27-37 | a record failing the gate is queued with retries one above the stored count (1 when absent) and this call's expected-friend hint; checked matches, leaderboard, log and other queue entries are unchanged and the call returns False |
| Processor.SuccessBookkeeping | processor.py:41-57 | a record passing the gate is marked checked with its start time and all players' account ids, leaves the queue, has its triggers appended in order to its log, and the call returns True; no other checked or queued match changes |
| Processor.ProcessUnparsedFrame | processor.py:31-57 | a call touches no retry-queue entry but its own id's |
| Processor.ProcessMonotone | processor.py:16-102 | checked matches stay checked, and the call returns True exactly when the id is checked afterwards or was handled in this run |
| Processor.CreditFriendsOther | processor.py:67-93 | booking leaves the entries of players not in the match as they were |
| Processor.CreditFriendsOnce | processor.py:67-93 | a tracked player listed once is booked exactly once, from the entry it had before booking |
| Processor.CreditFriendsOk | processor.py:67-93 | booking keeps the leaderboard invariant |
| Processor.ProcessKeepsInvariant | processor.py:9-102 | processing keeps streaks exclusive and every running total the sum of its per-match subtotals |
| Processor.FriendBooked | processor.py:59-93 | a tracked player listed once ends with the successor streak and a profile whose total and this match's subtotal rise by its triggers' points, whose summary of this match lists its triggers in order after any it held, with other summaries kept |
| Processor.CreditEffect | processor.py:88-93 | crediting raises the total and the match subtotal by the share's points, appends the share's entries, and keeps other summaries |
| Processor.CreditPlayerAsWritten | processor.py:71-78 | the booking step as written either fails (an entry without the per-match keys) or books exactly as the corrected step does |
| Processor.FirstTimePlayerFails | processor.py:71-78 | a scored match with a tracked player who had no leaderboard entry makes the as-written booking fail |
| Processor.ProcessMatch | processor.py:9-102 | the in-place pipeline leaves the store and returns the answer of `Process` on the old store |
| Processor.BookMatch | processor.py:39-93 | steps 4 to 6 leave the store as `Scored` says: scored, logged, checked, dequeued, booked |
| Processor.CreditAll | processor.py:67-93 | the booking loop leaves the leaderboard of `CreditFriends` and nothing else changed |
| Processor.LogOne | processor.py:44-48 | one loop step appends one stamped trigger to the match's log |
| Processor.LogTriggers | processor.py:42-48 | the match's log becomes its old contents (empty when absent) followed by the stamped triggers; nothing else changes |
| Processor.CreditOne | processor.py:68-93 | one tracked player's entry becomes that of `CreditPlayer`; nothing else changes |
| Processor.CreditProfile | processor.py:71-93 | the profile after the player's share is added is that of `Credit` |
| Processor.AddOne | processor.py:90-93 | one loop step appends one entry and raises both totals by its points |
| Processor.AddTriggers | processor.py:89-93 | the summary's challenges gain the share's entries, and its subtotal and the running total rise by the share's total |
| RunLoop.Handle | main.py:26-28 | one pipeline call of the run: the id joins the handled set exactly when the call answers True (HandleKeeps) |
| RunLoop.Retry | main.py:18-28 | the retry pass over the snapshot of queued ids in order, each called with the hint stored for it (RetryKeeps) |
| RunLoop.PageStep | main.py:42-49 | one page: ids handled earlier in the run are skipped, the others processed with the member as the hint (PageStepKeeps, SkipRedundant) |
| RunLoop.ScanFrom | main.py:35-51 | a member's pages from an offset, one batch apart, until the first empty page (ScanFromKeeps) |
| RunLoop.ScanAll | main.py:33-51 | the scan over the roster in its iteration order, each member from offset 0 (ScanAllKeeps) |
| RunLoop.Run | main.py:14-51 | the run as a value: the retry pass from an empty handled set, then the roster scan (RunKeeps) |
| RunLoop.RetryUnparsed | main.py:17-28 | the retry pass over the snapshot of queued ids, each with its stored hint, leaves the store and handled set of `Retry` |
| RunLoop.ScanPlayer | main.py:35-51 | the paging loop from offset 0 leaves the store and handled set of `ScanFrom` |
| RunLoop.ScanPage | main.py:37-51 | one page: the next offset is one batch on; when it reports no further page the member's scan from this offset is complete, otherwise scanning on from the next offset completes it, and a further page lies inside the history |
| RunLoop.ProcessPage | main.py:42-49 | the loop over a page's ids leaves the store and handled set of `PageStep` |
| RunLoop.RunCheck | main.py:8-51 | the run leaves the store and handled set of `Run`: the retry pass, then the scan over the roster |
| RunLoop.HandleKeeps | main.py:26-28 | one call never shrinks the handled set or the checked matches, keeps a handled set made of checked matches so, and keeps the store invariant |
| RunLoop.RetryKeeps | main.py:21-28 | the retry pass never shrinks the handled set or the checked matches, keeps a handled set made of checked matches so, and keeps the invariant |
| RunLoop.PageStepKeeps | main.py:42-49 | a page never shrinks the handled set or the checked matches, keeps a handled set made of checked matches so, and keeps the invariant |
| RunLoop.ScanFromKeeps | main.py:35-51 | a member's scan never shrinks the handled set or the checked matches, keeps a handled set made of checked matches so, and keeps the invariant |
| RunLoop.ScanAllKeeps | main.py:33-51 | the roster scan never shrinks the handled set or the checked matches, keeps a handled set made of checked matches so, and keeps the invariant |
| RunLoop.RunKeeps | main.py:14-54 | after a run every match handled in it is checked, none checked before is forgotten, and the store invariant holds |
| RunLoop.SkipRedundant | main.py:44-45 | skipping ids the run already handled gives the same store and handled set as processing them again |
| RunLoop.Points | main.py:67 | the points shown for a key: its running total, 0 for an entry without one |
| RunLoop.Leaders | main.py:64-69 | the first three keys of the visiting order sorted by points, highest first (LeadersSpec) |
| RunLoop.NameFor | main.py:73-77 | the display name of a key: the roster's name, else the stored name, else the key itself |
| RunLoop.Insert | main.py:65-69 | inserting a key gives a permutation of the list with that key added |
| RunLoop.InsertSorted | main.py:65-69 | inserting into a list sorted by points, highest first, keeps it sorted |
| RunLoop.SortByPoints | main.py:65-68 | sorting gives a permutation of the visited keys |
| RunLoop.SortSorted | main.py:65-68 | the sorted keys are ordered by points, highest first |
| RunLoop.LeadersSpec | main.py:64-69 | the leaders are min(3, n) keys of the visiting order (which lists the leaderboard's keys), sorted highest first, and no key left out has more points than any leader |
| RunLoop.TopAbove | main.py:65-69 | in a list sorted highest first, a key among the first n has at least the points of a key found only after them |
| RunLoop.TopThree | main.py:63-78 | the summary has min(3, n) lines in non-increasing points, each the display name and points of a key of the visiting order |
| RunLoop.Standings | main.py:71-78 | one line per leader, its display name (roster, stored name, key) and points |
| RunLoop.PrintTopThree | main.py:63-78 | the listing loop produces exactly the summary `TopThree` states: the leaders' names and points, highest first |
| RunLoop.TrimLeft | main.py:91 | leading whitespace is stripped, leaving a suffix that starts with something else |
| RunLoop.TrimRight | main.py:91 | trailing whitespace is stripped, leaving a prefix that ends with something else |
| RunLoop.ParseInt | main.py:90-94 | an accepted text's value is the value of some well-formed digit string or its negation (ParseDigits and ParseIntRoundTrip give the converse) |
| RunLoop.ParseDigits | main.py:91 | a minus sign or nothing, followed by well-formed digits, reads as their signed value |
| RunLoop.ParseIntRoundTrip | main.py:90-94 | every printed integer is read back as itself |
| RunLoop.TestRunAsWritten | main.py:84-108 | the single-match test as written: the report is chosen by membership in a set that nothing adds to (SuccessUnreported) |
| RunLoop.TestRun | main.py:84-108 | the corrected test: non-numeric text is rejected, otherwise one pipeline call with no hint, reporting success exactly when it answers True (TestRunRejects, SuccessUnreported) |
| RunLoop.SuccessUnreported | main.py:101-108 | as written, a match processed in full is reported only as completed; the corrected test reports success; both leave the same store |
| RunLoop.TestSingleMatch | main.py:84-108 | the test leaves the store and report of `TestRun`: non-numeric text is rejected, otherwise one `process_match` call with no hint |
| RunLoop.TestRunRejects | main.py:90-94 | non-numeric text leaves the store untouched and is rejected; any printed integer is accepted |
| DraftChecker.LossFor | python_challenge_checker.py:125-145 | a player's loss rewards are loss-rule triggers carrying that player's account id |
| DraftChecker.LossRules | python_challenge_checker.py:113-145 | the loop's triggers are loss rewards only |
| DraftChecker.Immortal | python_challenge_checker.py:147-151 | the winner's penalty is Immortal Reverse or nothing |
| DraftChecker.Losers | python_challenge_checker.py:154 | the losing side is exactly the players who did not win |
| DraftChecker.Lowest | python_challenge_checker.py:156 | the least hero damage of the losing side is some loser's damage and no loser's is lower |
| DraftChecker.WetFrom | python_challenge_checker.py:157-162 | a Wet Noodle trigger is exactly one for a tracked player of the list with the given damage |
| DraftChecker.Throwback | python_challenge_checker.py:164-176 | the side test succeeds exactly when every tracked player has a slot, and then the triggers are exactly those of the tracked losers whose enemy barracks read 0 |
| DraftChecker.Wet | python_challenge_checker.py:153-162 | the low-damage rule over the whole losing side, nothing when no one lost (WetSpec) |
| DraftChecker.ZeroKillers | python_challenge_checker.py:179 | the account ids of the losers without a kill, in order, never more than the losers |
| DraftChecker.DuoFor | python_challenge_checker.py:181-185 | every award of the inner loop goes to the outer id, worth 30 |
| DraftChecker.DuoForLength | python_challenge_checker.py:180-185 | an id gets one award per zero-kill entry other than itself |
| DraftChecker.DuoKind | python_challenge_checker.py:179-185 | every pair award is a 30-point Double Disaster Duo |
| DraftChecker.DuoAll | python_challenge_checker.py:180-185 | the nested pair loop: each entry of the outer list gets its awards against the zero-kill list (DuoShare, DuoKind) |
| DraftChecker.Duo | python_challenge_checker.py:178-185 | the pair rule over the zero-kill losers of the whole match (DuoSpec, DuoSingle) |
| DraftChecker.Check | python_challenge_checker.py:102-187 | never the bare list: no tracked player gives no triggers with the start time; the side test fails exactly when a tracked player has no slot; a scored result carries the start time |
| DraftChecker.CheckAsWritten | python_challenge_checker.py:108-111 | the check as written: the bare list when no player is tracked, otherwise the corrected check (BareListBreaksCaller, AsWrittenAgrees) |
| DraftChecker.BareListBreaksCaller | python_challenge_checker.py:110-111 | as written, a match without a tracked player cannot be unpacked by the caller; with the pair it unpacks to no triggers and the start time |
| DraftChecker.AsWrittenAgrees | python_challenge_checker.py:108-187 | with a tracked player the as-written and corrected checks agree |
| DraftChecker.LossRows | python_challenge_checker.py:124-145 | a loser's rewards are the five rows in source order, each present exactly when its condition holds |
| DraftChecker.LossCount | python_challenge_checker.py:125-145 | a loser gets Pacifist once at 0 kills, Silent Supporter once at 0 assists, Siege Breaker once at 0 tower damage, Tragic 20 once at 0 kills and 20+ deaths, Twenty Bomb once at 20+ deaths, and nothing else |
| DraftChecker.CountRows | python_challenge_checker.py:125-145 | the five rows hold each loss challenge once exactly when its condition holds, and no other challenge |
| DraftChecker.TragicCoFires | python_challenge_checker.py:138-145 | Tragic 20 never fires alone: Pacifist and Twenty Bomb fire beside it once each; a winner gets no loss reward |
| DraftChecker.LossForBounds | python_challenge_checker.py:125-145 | a player's loss rewards are worth 0 to 85, and 85 exactly for a loss with no kill, assist or tower damage and 20+ deaths |
| DraftChecker.ImmortalAtMostOnce | python_challenge_checker.py:147-151 | a scored match carries at most one Immortal Reverse, and one exactly when the last tracked player won without dying |
| DraftChecker.ImmortalNamesLast | python_challenge_checker.py:147-151 | when a scored match carries an Immortal Reverse, it is the last tracked player's, under that player's account id |
| DraftChecker.ImmortalFires | python_challenge_checker.py:147-151 | when the last tracked player won without dying, the match carries that player's Immortal Reverse |
| DraftChecker.CheckParts | python_challenge_checker.py:102-187 | a scored match's triggers are the loss rewards, the winner's penalty, Wet Noodle, Throwback Throw and the duo awards, in that order |
| DraftChecker.WetSpec | python_challenge_checker.py:153-162 | Wet Noodle goes to every tracked loser whose damage is the least on the losing side, ties included, and to no one else |
| DraftChecker.ThrowbackSpec | python_challenge_checker.py:164-176 | with every tracked slot known the match is scored, and a tracked loser whose enemy barracks read 0 (absent reads 0) gets a Throwback Throw trigger under its own account id |
| DraftChecker.DuoShare | python_challenge_checker.py:178-185 | each id is owed one award per occurrence in the outer list times the zero-kill entries other than itself |
| DraftChecker.DuoShareBy | python_challenge_checker.py:178-185 | the same count, given the number of other entries |
| DraftChecker.DuoSpec | python_challenge_checker.py:178-185 | with k distinct zero-kill losers each gets k-1 Double Disaster Duo awards, and fewer than two produce none |
| DraftChecker.DuoSingle | python_challenge_checker.py:180-185 | a single zero-kill loser earns nothing |
| DraftChecker.CheckChallenges | python_challenge_checker.py:102-187 | the step-by-step check returns exactly `Check` |
| DraftChecker.FriendLoop | python_challenge_checker.py:113-145 | the loop yields the loss rewards of all tracked players and leaves its variables as the last tracked player set them |
| DraftChecker.FriendStep | python_challenge_checker.py:113-145 | one iteration appends one more player's loss rewards |
| DraftChecker.AppendLossRules | python_challenge_checker.py:124-145 | the five conditional appends add exactly that player's loss rewards |
| DraftChecker.AppendWet | python_challenge_checker.py:157-162 | the loop over the losers appends exactly the Wet Noodle triggers |
| DraftChecker.AppendThrowback | python_challenge_checker.py:164-176 | the loop fails exactly when the side test fails, and otherwise appends the Throwback Throw triggers |
| DraftChecker.ThrowbackStep | python_challenge_checker.py:167-176 | one tracked player: an unknown slot fails the side test, otherwise its trigger (if any) is appended |
| DraftChecker.AppendDuo | python_challenge_checker.py:178-185 | the pair loop appends exactly the duo awards |
| DraftChecker.AppendDuoStep | python_challenge_checker.py:180-185 | one outer iteration appends one zero-kill loser's awards |
| DraftChecker.AppendDuoRow | python_challenge_checker.py:181-185 | the inner loop appends one award per other zero-kill entry |
| DraftChecker.DraftStore.constructor | python_challenge_checker.py:44-49 | the fallback store is empty with no last-checked time |
| DraftChecker.EmptyDraftOk | python_challenge_checker.py:49 | the empty store satisfies the ledger invariant |
| DraftChecker.ApplyOne | python_challenge_checker.py:211-227 | crediting one trigger: its account, created empty when missing, gains the points and one history line, and that account's total for the match day grows by the points (ApplyOneKeeps, HistoryOfApply, DailyOfApply) |
| DraftChecker.Apply | python_challenge_checker.py:210-227 | crediting the triggers of a match in order (ApplyKeeps, ApplyCredits) |
| DraftChecker.ApplyOneKeeps | python_challenge_checker.py:210-227 | crediting one trigger keeps points equal to the history sum and each day's total equal to that day's history |
| DraftChecker.DailyStep | python_challenge_checker.py:222-227 | one credit keeps one day's total of one account in step with its history |
| DraftChecker.HistoryOfApply | python_challenge_checker.py:212-220 | one credit appends one history line to the trigger's account and to no other |
| DraftChecker.DailyOfApply | python_challenge_checker.py:222-227 | one credit raises exactly one daily total, the trigger's account on the match day, by the points |
| DraftChecker.ApplyKeeps | python_challenge_checker.py:210-227 | crediting a match's triggers keeps the ledger invariant |
| DraftChecker.ApplyCredits | python_challenge_checker.py:210-227 | each account gains exactly its own triggers' points and one history line per trigger; the checked map is untouched |
| DraftChecker.DraftStep | python_challenge_checker.py:200-251 | one listed id: a checked id or a failed fetch is skipped, otherwise the triggers are credited and the id recorded as checked with the match time (DraftStepSpec) |
| DraftChecker.DraftPage | python_challenge_checker.py:200-251 | the ids of one page in order (DraftPageKeeps) |
| DraftChecker.DraftScanFrom | python_challenge_checker.py:195-252 | an account's pages from an offset, one batch apart, until the first empty page (DraftScanFromKeeps) |
| DraftChecker.DraftScanAll | python_challenge_checker.py:194-252 | the scan over the account list in order, each from offset 0 (DraftScanAllKeeps) |
| DraftChecker.DraftRun | python_challenge_checker.py:190-254 | the run as a value: the account scan, then the run time stamped (DraftRunKeeps) |
| DraftChecker.NamedPart | python_challenge_checker.py:112-176 | every trigger of a scored match other than the duo awards names a tracked account (the loss rows, the winner's penalty, the low-damage and thrown-game rules), so the duo awards follow them |
| DraftChecker.WetNamed | python_challenge_checker.py:152-158 | every low-damage trigger names an account |
| DraftChecker.ThrowbackNamed | python_challenge_checker.py:165-176 | every thrown-game trigger of tracked players names an account |
| DraftChecker.DuoAnonymous | python_challenge_checker.py:179-185 | the duo rule credits the anonymous key n * (k - n) times, for k zero-kill losers of whom n are anonymous |
| DraftChecker.AnonymousShare | python_challenge_checker.py:108-185 | in a match whose tracked players all have a slot, the anonymous key gets nothing without a tracked player, and otherwise exactly the duo rule's n * (k - n) triggers |
| DraftChecker.DraftStepAsWritten | python_challenge_checker.py:200-251 | the step as written: it fails when the bare list of a match without a tracked player is unpacked (line 206) or when the message loop's `int(sid)` raises on the key "None" (line 235), either way ending the run before line 255 saves the store; otherwise it gives exactly the corrected step (StepAsWrittenFails) |
| DraftChecker.StepAsWrittenFails | python_challenge_checker.py:108-235 | as written, a new fetched match fails exactly when no player is tracked, or when the zero-kill losers include an anonymous player and a player with an account |
| DraftChecker.StepCreditsAnonymous | python_challenge_checker.py:209-218 | the corrected step adds to the anonymous key's history exactly its duo awards |
| DraftChecker.AnonymousDuoLosers | python_challenge_checker.py:179 | the example match: the zero-kill losers are the tracked id 7 and an anonymous player |
| DraftChecker.AnonymousDuoStopsRun | python_challenge_checker.py:233-235 | on the example match the step as written fails |
| DraftChecker.AnonymousDuoCredited | python_challenge_checker.py:209-251 | on the example match the corrected step records the match and gives the anonymous key one history line |
| DraftChecker.DraftStepSpec | python_challenge_checker.py:200-251 | a fetched match is recorded as checked, no checked id is forgotten, the invariant is kept, and a second step on the same id changes nothing |
| DraftChecker.DraftPageKeeps | python_challenge_checker.py:200-251 | a page keeps the invariant, forgets no checked id, and marks every fetched id checked |
| DraftChecker.DraftScanFromKeeps | python_challenge_checker.py:195-252 | an account's scan keeps the invariant and forgets no checked id |
| DraftChecker.DraftScanAllKeeps | python_challenge_checker.py:194-252 | the scan over the account list keeps the invariant and forgets no checked id |
| DraftChecker.DraftRunKeeps | python_challenge_checker.py:190-255 | the run keeps the invariant, forgets no checked id and stamps the run time |
| DraftChecker.ApplyTriggers | python_challenge_checker.py:210-227 | the loop over the triggers leaves the store of `Apply` |
| DraftChecker.ApplyTrigger | python_challenge_checker.py:211-227 | one trigger leaves the store of `ApplyOne` |
| DraftChecker.CreditAccount | python_challenge_checker.py:211-220 | the account is created at zero when missing, then gains the points and one history line; nothing else changes |
| DraftChecker.CreditDay | python_challenge_checker.py:222-227 | the day and account entries are created at zero when missing, then grow by the points; nothing else changes |
| DraftChecker.DraftProcess | python_challenge_checker.py:200-251 | one listed id leaves the store of `DraftStep`: skipped when checked or not fetched, else credited and recorded |
| DraftChecker.DraftProcessPage | python_challenge_checker.py:200-251 | the loop over a page leaves the store of `DraftPage` |
| DraftChecker.DraftScanPlayer | python_challenge_checker.py:195-252 | the paging loop from offset 0 leaves the store of `DraftScanFrom` |
| DraftChecker.DraftScanPage | python_challenge_checker.py:196-252 | one page: the next offset is one batch on, the page is non-empty exactly when the scan goes on, and the rest of the scan agrees from either side |
| DraftChecker.DraftRunCheck | python_challenge_checker.py:190-255 | the run leaves the store of `DraftRun`: every account scanned in list order, then the run time stamped |
| DraftChecker.DraftRunStep | python_challenge_checker.py:194-252 | one account of the run is one more step of `DraftScanAll` |

## Left out

- Network I/O is not modelled: the HTTP session, timeouts, rate-limit handling and back-off (api.py). The match fetch is a parameter and the history listing a given sequence.
- File I/O is not modelled: loading and saving the store, roster and hero table (data.py). The hero table is a parameter, and the store starts from whatever the caller holds.
- The Discord webhook and message text (discord.py and python_challenge_checker.py:236-249) are not modelled, as they are output only. The name lookup at python_challenge_checker.py:235 is modelled as far as it can fail (`DraftStepAsWritten`). The grouping by recipient at lines 229-231 is not modelled, because it only feeds the messages.
- The newer store's `daily` map, which the fallback store at data.py:32-36 creates, is not modelled. The newer pipeline neither reads nor writes it. `Store.Store` instead holds the challenge log that processor.py:42 creates.
- Privacy probing (privacy_utils.py, privacy_check.py) is not part of this model.
- `print` logging, and the run summaries in main.py:53-61 and python_challenge_checker.py:256, are not modelled. They are output only.
- The draft's `total_triggers` counter (python_challenge_checker.py:192, 207) is not modelled; it only feeds a print.
- The configuration's `END_DATE` exit at import is not modelled, because it depends on the wall clock.
- Date conversions are not modelled. Every `strftime`/`isoformat` text is the underlying integer time, and a date-only key is the UTC day number.
- The wall-clock times are not modelled as a clock. `first_seen` and the draft's `last_checked` take the `now` parameter.
- `first_seen` is rewritten on every deferral, as the source does.
- The checked entry's constant `"parsed": True` field is not modelled.
- The draft's display-only trigger fields (hero, KDA, damage) are not modelled. Its triggers keep account, match, challenge and points.
- The newer triggers' hero and KDA display fields are not modelled beyond the hero name lookup and the K/D/A counts.
- Python truthiness of non-boolean `win` values is not modelled, nor non-integer counts. Fields hold integers or booleans, or are absent.
- A key present with a JSON null is read like an absent key (`None`). The source's handling differs in the places below, none of which the readiness gate checks.
- MatchData.MatchTime: reads a null start time as 0. The source passes None to `fromtimestamp` and raises TypeError (challenges.py:10, python_challenge_checker.py:105), which ends the run.
- MatchData.IsRadiant: reads a null slot as 0, the Radiant side. In the newer rule engine `None < 128` raises TypeError (challenges.py:31); an absent slot does read as 0 there. The earlier checker's slot test is modelled as `SlotError`.
- MatchData.EnemyBarracks: reads a null barracks status as 0. In the earlier checker a present null stays None, which never equals 0, so Throwback Throw does not fire (python_challenge_checker.py:165-171), while the model awards it. The newer engine's gate defers a match with a null barracks status, so it is unaffected.
- MatchData.AccountIds: lists a player without `account_id` as `None`. The source indexes `p["account_id"]` and raises KeyError for such a player (processor.py:54); a present null is listed as null, as modelled.
- A multi-kill histogram that is not a dictionary reads the same as an absent one.
- Histogram keys are integers rather than text.
- RunLoop.ParseInt: models `int()` on ASCII text only (spaces, sign, digits, single underscores). Unicode digits and whitespace are not modelled.
- RunLoop.TopThree: does not prove that equal-point keys keep their visiting order. `Insert` does keep it, as Python's stable sort does, but only the ordering by points and the membership are proved.
- DraftChecker.DraftStep: requires every tracked player of a fetched match to have a slot. The source raises a TypeError on an absent slot (python_challenge_checker.py:168), which ends the run. The check itself models that case as `SlotError`.
- DraftChecker.DraftProcess, DraftChecker.DraftPage, DraftChecker.DraftProcessPage, DraftChecker.DraftScanFrom, DraftChecker.DraftScanPlayer, DraftChecker.DraftScanPage, DraftChecker.DraftScanAll, DraftChecker.DraftRunStep, DraftChecker.DraftRun, DraftChecker.DraftRunCheck: carry the same slot requirement on the match source.
- DraftChecker.DraftStepAsWritten, DraftChecker.StepAsWrittenFails, DraftChecker.StepCreditsAnonymous, DraftChecker.AnonymousShare: carry the same slot requirement on their match.
- DraftChecker.DraftStepSpec, DraftChecker.DraftPageKeeps, DraftChecker.DraftScanFromKeeps, DraftChecker.DraftScanAllKeeps, DraftChecker.DraftRunKeeps: are proved under the same slot requirement.
- Processor.Process, Processor.ProcessMatch, Processor.Scored, Processor.BookMatch, Processor.CreditFriends, Processor.CreditAll, Processor.CreditOne, Processor.CreditProfile, Processor.ProcessKeepsInvariant, Processor.FriendBooked: model the corrected booking of the first finding, with the first-time defaults applied. As written, booking raises KeyError as soon as a tracked player has no leaderboard entry. main.py:121 catches it before the store is saved at main.py:54, so that run's changes are lost.
- RunLoop.Handle, RunLoop.Retry, RunLoop.PageStep, RunLoop.ScanFrom, RunLoop.ScanAll, RunLoop.Run, RunLoop.RetryUnparsed, RunLoop.ProcessPage, RunLoop.ScanPlayer, RunLoop.ScanPage, RunLoop.RunCheck and the lemmas about them: also run on that corrected booking.
- RunLoop.TestSingleMatch: reports as the corrected test of the third finding. As written, main.py:105-108 always reports completion.
- DraftChecker.DraftStep, DraftChecker.DraftProcess, DraftChecker.DraftRun, DraftChecker.DraftRunCheck and the other draft run members above: credit an anonymous zero-kill loser's duo awards under the key `None` and go on (the corrected step of the fourth finding). As written, the message loop's `int(sid)` at python_challenge_checker.py:235 raises ValueError on the key "None", which ends the run before line 255 saves the store, so none of that run's credits are kept. `DraftStepAsWritten` models the failing step; the run members are not modelled as written.
- DraftChecker.DraftStep and the draft run members above: use the corrected check of the second finding. As written, a match without a tracked player raises ValueError at python_challenge_checker.py:206, which ends the run before line 255 saves the store. `DraftStepAsWritten` models that failure as well.
- The concurrency of several runs over one store file is not modelled. Each run is sequential.

## Findings

| source | as written | input that shows it | evidently intended | confidence | as-written member | corrected member |
|---|---|---|---|---|---|---|
| processor.py:71-78 | the booking `setdefault` applies its defaults only when the leaderboard entry is absent, but the rule engine has already created it as an empty dict (challenges.py:43), so `player_entry["matches"]` raises KeyError | any match that passes the gate with a tracked player who has no leaderboard entry yet (FirstTimePlayerFails) | an entry holding only streak keys gets the name, zero total and empty match map, then the match is booked (FriendBooked) | high; not executed | Processor.CreditPlayerAsWritten | Processor.CreditPlayer |
| python_challenge_checker.py:110-111 | with no tracked player the check returns a bare `[]`, which the caller at line 206 unpacks into two names, raising ValueError | a listed match in which no player is on the friend list (BareListBreaksCaller) | return the empty trigger list with the start time, so the match is recorded as checked with no points | high; not executed | DraftChecker.CheckAsWritten | DraftChecker.Check |
| main.py:101-106 | the single-match test picks its success message by `match_id_int in processed_this_run`, but nothing adds to that set, so success is never reported | any numeric id of an unchecked match whose record is fetched and passes the gate (SuccessUnreported) | report success exactly when `process_match` returns True | high; not executed | RunLoop.TestRunAsWritten | RunLoop.TestRun |
| python_challenge_checker.py:179-235 | the duo rule keeps an anonymous zero-kill loser's id, which is None. Its award key is then the text "None", and the message name lookup `int(sid)` raises ValueError, which ends the run before the store is saved at line 255 | a tracked player and an anonymous player who both lose without a kill (AnonymousDuoStopsRun, StepAsWrittenFails) | the awards are credited under that key and the run goes on, the name falling back to the key text as `.get(..., sid)` intends (StepCreditsAnonymous, AnonymousDuoCredited) | high; not executed | DraftChecker.DraftStepAsWritten | DraftChecker.DraftStep |
